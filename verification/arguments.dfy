/**
 * The two arguments of VALIDATE_BED_MESH: MAX_DEVIATION (a number, default
 * 0.05) and SAVE_CONFIG (text compared, upper-cased, with "TRUE"; default
 * "FALSE"). Number parsing belongs to the G-code layer; an argument arrives
 * here already parsed, or absent.
 */
module Arguments {
  import opened Wrappers

  const DefaultMaxDeviation: real := 0.05

  /** The deviation threshold in effect for one run. */
  function MaxDeviation(arg: Option<real>): real {
    arg.GetOr(DefaultMaxDeviation)
  }

  /** ASCII upper-casing of one character. */
  function UpperChar(c: char): char {
    if 'a' <= c <= 'z' then (c as int - 32) as char else c
  }

  function Upper(s: string): string {
    seq(|s|, i requires 0 <= i < |s| => UpperChar(s[i]))
  }

  /** Whether the run persists the configuration after a remesh. */
  function SaveConfig(arg: Option<string>): bool {
    Upper(arg.GetOr("FALSE")) == "TRUE"
  }

  /** SAVE_CONFIG is on exactly for the sixteen case-spellings of "true". */
  lemma SaveConfigSpellings(s: string)
    ensures SaveConfig(Some(s)) <==>
      |s| == 4 && s[0] in "Tt" && s[1] in "Rr" && s[2] in "Uu" && s[3] in "Ee"
  {
    var u := Upper(s);
    if |s| == 4 {
      assert u == [UpperChar(s[0]), UpperChar(s[1]), UpperChar(s[2]), UpperChar(s[3])];
    }
  }

  /** Without SAVE_CONFIG the configuration is never saved. */
  lemma SaveConfigDefault()
    ensures !SaveConfig(None)
  {
    assert Upper("FALSE")[0] == 'F';
  }
}
