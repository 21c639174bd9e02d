/** The static category taxonomy every handler validates against. */
module Categories {
  import opened Js

  const EmailCategories: seq<string> :=
    ["Important", "Personal", "Work", "Finance", "Marketing", "Social", "Updates", "Spam"]

  predicate IsCategory(c: string) {
    c in EmailCategories
  }

  /** A category the classifier's output schema admits. */
  type Category = c: string | IsCategory(c) witness "Important"

  /** `EMAIL_CATEGORIES.includes(v)`: strict equality, so only a string of the list is included. */
  predicate Includes(v: JsValue) {
    v.Str? && IsCategory(v.s)
  }
}
