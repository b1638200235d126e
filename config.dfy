/** The configuration checks of `src/config.py`: the two required API keys,
    the masking of secrets in the configuration dump, and the `DEBUG` flag.
    The environment is read once at import; its values are parameters here
    (`None` for an unset variable). */
module Config {
  import opened Common
  import opened Text

  const PineconeMissing := "PINECONE_API_KEY er ikke satt i miljøvariablene"
  const OpenAIMissing := "OPENAI_API_KEY er ikke satt i miljøvariablene"

  /** A variable is set when it is present and not empty (Python truthiness
      of an optional string). */
  predicate IsSet(v: Option<string>)
  {
    v.Some? && |v.value| > 0
  }

  /** `validate_config`: one message per missing key, Pinecone's first; the
      configuration is valid exactly when both keys are set. */
  method ValidateConfig(pineconeApiKey: Option<string>, openAIApiKey: Option<string>)
    returns (valid: bool, errors: seq<string>)
    ensures valid <==> IsSet(pineconeApiKey) && IsSet(openAIApiKey)
    ensures valid <==> |errors| == 0
    ensures |errors| == (if IsSet(pineconeApiKey) then 0 else 1) + (if IsSet(openAIApiKey) then 0 else 1)
    ensures PineconeMissing in errors <==> !IsSet(pineconeApiKey)
    ensures OpenAIMissing in errors <==> !IsSet(openAIApiKey)
    ensures !IsSet(pineconeApiKey) ==> errors[0] == PineconeMissing
  {
    errors := [];
    if !IsSet(pineconeApiKey) {
      errors := errors + [PineconeMissing];
    }
    if !IsSet(openAIApiKey) {
      errors := errors + [OpenAIMissing];
    }
    valid := |errors| == 0;
  }

  /** Whether a configuration name is a secret. */
  predicate IsApiKey(key: string)
  {
    Contains(key, "API_KEY")
  }

  /** `sensurert_verdi`: an unset value reads `None`; a non-empty secret
      longer than eight characters shows only its first and last four,
      a shorter one is fully hidden; anything else is shown as it is. */
  function Censored(key: string, value: Option<string>): (r: string)
    ensures value.None? ==> r == "None"
    ensures value.Some? && (!IsApiKey(key) || |value.value| == 0) ==> r == value.value
    ensures value.Some? && IsApiKey(key) && 0 < |value.value| <= 8 ==> r == "****"
    ensures value.Some? && IsApiKey(key) && |value.value| > 8 ==>
              |r| == 11 && r[..4] == value.value[..4] && r[4..7] == "..."
              && r[7..] == value.value[|value.value| - 4..]
  {
    if value.None? then "None"
    else
      var v := value.value;
      if IsApiKey(key) && |v| > 0 then
        (if |v| > 8 then v[..4] + "..." + v[|v| - 4..] else "****")
      else v
  }

  /** The mask of a secret depends on nothing but its first and last four
      characters: two long secrets that agree there mask alike, and all
      short ones mask alike. */
  lemma CensoredRevealsOnlyEnds(key: string, v: string, w: string)
    requires IsApiKey(key) && |v| > 0 && |w| > 0
    requires |v| > 8 <==> |w| > 8
    requires |v| > 8 ==> v[..4] == w[..4] && v[|v| - 4..] == w[|w| - 4..]
    ensures Censored(key, Some(v)) == Censored(key, Some(w))
  {
  }

  /** A secret longer than eleven characters is never shown whole. */
  lemma CensoredHidesLongSecrets(key: string, v: string)
    requires IsApiKey(key) && |v| > 11
    ensures Censored(key, Some(v)) != v
  {
    assert |Censored(key, Some(v))| == 11;
  }

  /** The values the flag accepts, after lower-casing. */
  const DebugWords: seq<string> := ["true", "1", "t"]

  /** `DEBUG`: the variable (default `"false"`) lower-cased is one of the
      accepted words. */
  function Debug(env: Option<string>): (r: bool)
    ensures env.None? ==> !r
  {
    var lowered := Lower(if env.Some? then env.value else "false");
    assert env.None? ==> lowered == "false" by {
      if env.None? {
        assert forall i :: 0 <= i < 5 ==> LowerChar("false"[i]) == "false"[i];
      }
    }
    lowered in DebugWords
  }

  /** The characters that lower-case to a given ASCII letter or digit are
      that character and, for a letter, its capital. */
  lemma LowerCharTo(c: char, target: char, upper: char)
    requires ('a' <= target <= 'z' && upper == (target as int - 32) as char) || ('0' <= target <= '9' && upper == target)
    ensures LowerChar(c) == target <==> c == target || c == upper
  {
  }

  /** The flag is on exactly for `1`, `t` and `true` in any mix of cases. */
  lemma DebugSpelled(s: string)
    ensures Debug(Some(s)) <==>
              s == "1"
              || (|s| == 1 && s[0] in {'t', 'T'})
              || (|s| == 4 && s[0] in {'t', 'T'} && s[1] in {'r', 'R'} && s[2] in {'u', 'U'} && s[3] in {'e', 'E'})
  {
    var lowered := Lower(s);
    if |s| == 1 {
      LowerCharTo(s[0], 't', 'T');
      LowerCharTo(s[0], '1', '1');
      assert lowered == "t" <==> LowerChar(s[0]) == 't';
      assert lowered == "1" <==> LowerChar(s[0]) == '1';
    }
    if |s| == 4 {
      LowerCharTo(s[0], 't', 'T');
      LowerCharTo(s[1], 'r', 'R');
      LowerCharTo(s[2], 'u', 'U');
      LowerCharTo(s[3], 'e', 'E');
      assert lowered == "true" <==>
               LowerChar(s[0]) == 't' && LowerChar(s[1]) == 'r' && LowerChar(s[2]) == 'u' && LowerChar(s[3]) == 'e';
    }
  }
}
