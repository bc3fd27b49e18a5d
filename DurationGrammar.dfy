/** The ISO 8601 duration fragment that both the server and the client read with the pattern
    `PT(?:(\d+)H)?(?:(\d+)M)?(?:(\d+)S)?`, searched for anywhere in the text.

    Every part after "PT" is optional, so the search succeeds exactly at the first "PT".
    Each optional group is tried greedily: its digit run is the maximal one, and the group
    takes part only when that run is non-empty and followed by the group's unit letter
    (backtracking to a shorter run cannot help, since a digit would then face the letter). */
module DurationGrammar {
  import opened Wrappers
  import opened Text

  /** The captures of one match; a group that did not take part is "". */
  datatype DurationMatch = DurationMatch(hours: string, minutes: string, seconds: string)

  /** The optional group `(?:(\d+)U)?` tried at the front of `s`: its digits ("" when the
      group does not take part) and the text left after it. */
  function Group(s: string, unit: char): (r: (string, string))
    ensures AllDigits(r.0)
    ensures r.0 == "" ==> r.1 == s
    ensures r.0 != "" ==> s == r.0 + [unit] + r.1
  {
    var n := DigitRun(s, 0);
    if n > 0 && n < |s| && s[n] == unit then
      assert s == s[..n] + [unit] + s[n + 1..];
      (s[..n], s[n + 1..])
    else ("", s)
  }

  /** The first match of the pattern in `s`, if any. */
  function MatchDuration(s: string): (r: Option<DurationMatch>)
    ensures r.Some? <==> Contains(s, "PT")
    ensures r.Some? ==> AllDigits(r.value.hours) && AllDigits(r.value.minutes) && AllDigits(r.value.seconds)
  {
    match IndexOf(s, "PT", 0)
    case None => None
    case Some(p) =>
      var (h, rest1) := Group(s[p + 2..], 'H');
      var (m, rest2) := Group(rest1, 'M');
      var (sec, _) := Group(rest2, 'S');
      Some(DurationMatch(h, m, sec))
  }

  /** One optional component of a rendered duration, such as "12M". */
  function Component(n: Option<nat>, unit: char): string {
    match n
    case None => ""
    case Some(v) => NatToDecimal(v) + [unit]
  }

  /** The digits a group captures from `Component(n, _)`. */
  function GroupDigits(n: Option<nat>): string {
    match n
    case None => ""
    case Some(v) => NatToDecimal(v)
  }

  /** A duration rendered as `PT[nH][nM][nS]`, any subset of the components present. */
  function IsoText(h: Option<nat>, m: Option<nat>, s: Option<nat>): string {
    "PT" + Component(h, 'H') + Component(m, 'M') + Component(s, 'S')
  }

  /** A group facing a digit run followed by the letter `u` takes it iff `u` is its unit. */
  lemma GroupFacing(d: string, u: char, rest: string, unit: char)
    requires |d| > 0 && AllDigits(d) && !IsDigit(u)
    ensures Group(d + [u] + rest, unit) == if u == unit then (d, rest) else ("", d + [u] + rest)
  {
    var s := d + [u] + rest;
    assert s[|d|] == u;
    assert forall k | 0 <= k < |d| :: s[k] == d[k];
    var n := DigitRun(s, 0);
    assert n == |d|;
    assert s[..n] == d;
    assert s[n + 1..] == rest;
  }

  /** The group for `unit` tried where up to three components follow, the first of them with
      unit `unit` and the others with other units: it captures the first component's digits
      (nothing when that component is absent) and leaves the other components. */
  lemma GroupOnComponents(c1: Option<nat>, unit: char, c2: Option<nat>, u2: char, c3: Option<nat>, u3: char)
    requires !IsDigit(unit) && !IsDigit(u2) && !IsDigit(u3) && u2 != unit && u3 != unit
    ensures var rest := Component(c2, u2) + Component(c3, u3);
            Group(Component(c1, unit) + rest, unit) == (GroupDigits(c1), rest)
  {
    var b, c := Component(c2, u2), Component(c3, u3);
    if c1.Some? {
      var d := NatToDecimal(c1.value);
      assert Component(c1, unit) + (b + c) == d + [unit] + (b + c);
      GroupFacing(d, unit, b + c, unit);
    } else if c2.Some? {
      var d := NatToDecimal(c2.value);
      assert Component(c1, unit) + (b + c) == d + [u2] + c;
      GroupFacing(d, u2, c, unit);
    } else if c3.Some? {
      var d := NatToDecimal(c3.value);
      assert b + c == d + [u3] + [];
      assert Component(c1, unit) + (b + c) == d + [u3] + [];
      GroupFacing(d, u3, [], unit);
    } else {
      assert Component(c1, unit) + (b + c) == [];
    }
  }

  /** Text that starts with "PT" has its first "PT" at the front. */
  lemma IndexOfFront(t: string)
    requires |t| >= 2 && t[0] == 'P' && t[1] == 'T'
    ensures IndexOf(t, "PT", 0) == Some(0)
  {
    assert t[0..2] == "PT";
    assert OccursAt(t, 0, "PT");
  }

  /** Text that starts with "PT" is matched there, the groups read one after another. */
  lemma MatchAtFront(t: string)
    requires |t| >= 2 && t[0] == 'P' && t[1] == 'T'
    ensures MatchDuration(t) ==
            Some(DurationMatch(Group(t[2..], 'H').0, Group(Group(t[2..], 'H').1, 'M').0,
                               Group(Group(Group(t[2..], 'H').1, 'M').1, 'S').0))
  {
    IndexOfFront(t);
  }

  /** The three groups read from rendered components capture their digits. */
  lemma GroupsOfComponents(h: Option<nat>, m: Option<nat>, sec: Option<nat>)
    ensures var g1 := Group(Component(h, 'H') + (Component(m, 'M') + Component(sec, 'S')), 'H');
            var g2 := Group(g1.1, 'M');
            g1.0 == GroupDigits(h) && g2.0 == GroupDigits(m) && Group(g2.1, 'S').0 == GroupDigits(sec)
  {
    var b, c := Component(m, 'M'), Component(sec, 'S');
    GroupOnComponents(h, 'H', m, 'M', sec, 'S');
    GroupOnComponents(m, 'M', sec, 'S', None, 'H');
    assert c + Component(None, 'H') == c;
    GroupOnComponents(sec, 'S', None, 'H', None, 'M');
    assert Component(None, 'H') + Component(None, 'M') == [];
    assert c + (Component(None, 'H') + Component(None, 'M')) == c;
  }

  /** Matching a rendered duration captures exactly the digits of its components. */
  lemma MatchIsoText(h: Option<nat>, m: Option<nat>, sec: Option<nat>)
    ensures MatchDuration(IsoText(h, m, sec)) ==
            Some(DurationMatch(GroupDigits(h), GroupDigits(m), GroupDigits(sec)))
  {
    var a, b, c := Component(h, 'H'), Component(m, 'M'), Component(sec, 'S');
    var t := IsoText(h, m, sec);
    assert t == "PT" + (a + (b + c));
    assert t[2..] == a + (b + c);
    MatchAtFront(t);
    GroupsOfComponents(h, m, sec);
  }

  /** A component's captured digits read back as its value. */
  lemma GroupDigitsValue(n: Option<nat>)
    ensures AllDigits(GroupDigits(n)) && DecimalValue(GroupDigits(n)) == n.GetOr(0)
  {
    if n.Some? {
      DecimalRoundTrip(n.value);
    }
  }
}
