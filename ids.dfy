/**
 * Ids: the id of the seeded default project, and ids built from numbers: the decimal rendering of the millisecond clock
 * (`Date.now().toString()`, used in message, project and backup ids) and the history
 * labels `v<n>.0` (`(n).toFixed(1)` of a whole number), with the parser that reads a
 * label back.
 */
module Ids {
  import opened Wrappers

  /** The id of the project the application starts with; several views treat it specially. */
  const DefaultProjectId := "default-01"

  function DigitChar(d: nat): (c: char)
    requires d < 10
    ensures '0' <= c <= '9'
  {
    ('0' as int + d) as char
  }

  function DigitValue(c: char): Option<nat>
  {
    if '0' <= c <= '9' then Some(c as int - '0' as int) else None
  }

  /** The shortest decimal spelling of `n`. */
  function NatToString(n: nat): (s: string)
    ensures |s| > 0
    ensures forall i :: 0 <= i < |s| ==> '0' <= s[i] <= '9'
  {
    if n < 10 then [DigitChar(n)] else NatToString(n / 10) + [DigitChar(n % 10)]
  }

  /** The value of a non-empty string of decimal digits. */
  function ParseNat(s: string): Option<nat>
  {
    if s == [] then None
    else
      var d := DigitValue(s[|s| - 1]);
      if d.None? then None
      else if |s| == 1 then d
      else match ParseNat(s[..|s| - 1])
        case None => None
        case Some(v) => Some(v * 10 + d.value)
  }

  lemma {:induction false} ParseNatToString(n: nat)
    ensures ParseNat(NatToString(n)) == Some(n)
  {
    if n >= 10 {
      var s := NatToString(n);
      assert s[..|s| - 1] == NatToString(n / 10);
      ParseNatToString(n / 10);
    }
  }

  /** The label `v<n>.0` that accepting a proposal gives the version it saves. */
  function VersionId(n: nat): (s: string)
    ensures |s| >= 4 && s[0] == 'v' && s[|s| - 2..] == ".0"
    ensures forall i :: 1 <= i < |s| - 2 ==> '0' <= s[i] <= '9'
  {
    "v" + NatToString(n) + ".0"
  }

  function ParseVersionId(s: string): Option<nat>
  {
    if |s| >= 3 && s[0] == 'v' && s[|s| - 2..] == ".0" then ParseNat(s[1..|s| - 2]) else None
  }

  lemma VersionIdRoundTrip(n: nat)
    ensures ParseVersionId(VersionId(n)) == Some(n)
  {
    var s := VersionId(n);
    assert s[1..|s| - 2] == NatToString(n);
    ParseNatToString(n);
  }

  /** Different numbers give different labels. */
  lemma VersionIdInjective(m: nat, n: nat)
    requires VersionId(m) == VersionId(n)
    ensures m == n
  {
    VersionIdRoundTrip(m);
    VersionIdRoundTrip(n);
  }
}
