/**
 * The start-up scrub of the process environment: a credentials path left at its documentation
 * placeholder would make every cloud client fail, so it is deleted before any client is built.
 */
module EnvFix {
  import opened Text

  const CredentialsKey: string := "GOOGLE_APPLICATION_CREDENTIALS"

  /** A value that is still the placeholder of the setup instructions. */
  predicate IsPlaceholder(value: string) {
    Includes(value, "path/to/") || Includes(value, "service-account-key.json")
  }

  /** The environment after the scrub. */
  function Scrubbed(vars: map<string, string>): map<string, string> {
    if CredentialsKey in vars && vars[CredentialsKey] != "" && IsPlaceholder(vars[CredentialsKey])
    then vars - {CredentialsKey}
    else vars
  }

  /**
   * The credentials variable is removed exactly when it is set to a non-empty placeholder; no
   * other variable changes; an unset or empty variable leaves the environment as it was.
   */
  lemma ScrubRemovesOnlyPlaceholder(vars: map<string, string>)
    ensures var vars' := Scrubbed(vars);
            && (CredentialsKey !in vars' <==> CredentialsKey !in vars || IsPlaceholder(vars[CredentialsKey]))
            && (CredentialsKey in vars' ==> vars'[CredentialsKey] == vars[CredentialsKey])
            && (forall k | k != CredentialsKey :: (k in vars' <==> k in vars) && (k in vars ==> vars'[k] == vars[k]))
            && (CredentialsKey !in vars || vars[CredentialsKey] == "" ==> vars' == vars)
  {
  }

  /** Scrubbing twice is scrubbing once. */
  lemma ScrubIdempotent(vars: map<string, string>)
    ensures Scrubbed(Scrubbed(vars)) == Scrubbed(vars)
  {
  }

  /** The process environment, which the scrub changes in place. */
  class Environment {
    var vars: map<string, string>

    constructor (vars0: map<string, string>)
      ensures vars == vars0
    {
      vars := vars0;
    }

    /** The module's top-level statement: delete the placeholder credentials path. */
    method Scrub()
      modifies this
      ensures vars == Scrubbed(old(vars))
    {
      var value := if CredentialsKey in vars then vars[CredentialsKey] else "";
      if value != "" && (Includes(value, "path/to/") || Includes(value, "service-account-key.json")) {
        vars := vars - {CredentialsKey};
      }
    }
  }
}
