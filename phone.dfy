/**
 * The Kenyan mobile-number pattern `^(?:p1|p2|p3)?[17]\d{8}$` that server.js and
 * Donate.js test, with its alternatives in two different orders. `MatchPattern`
 * follows the regular-expression engine (the optional group is greedy and its
 * alternatives are tried left to right, then skipped); `InPattern` is the language
 * the expression denotes.
 */
module KenyanPhone {
  import opened Wrappers
  import opened JsText

  /** `[17]\d{8}`: a nine-digit subscriber number starting with 1 or 7. */
  predicate IsSubscriber(d: string) {
    |d| == 9 && (d[0] == '1' || d[0] == '7') && AllDigits(d)
  }

  /** The alternatives of server.js:77 and of the inline check at Donate.js:216. */
  const ServerPrefixes: seq<string> := ["+254", "254", "0"]

  /** The alternatives of Donate.js:49. */
  const DonatePrefixes: seq<string> := ["0", "+254", "254"]

  /** `s` is an optional prefix from `prefixes` followed by a subscriber number. */
  ghost predicate InPattern(prefixes: seq<string>, s: string) {
    exists k :: 0 <= k <= |s| && (k == 0 || s[..k] in prefixes) && IsSubscriber(s[k..])
  }

  /**
   * The regular-expression engine on `^(?:p1|...)?([17]\d{8})$`: the captured subscriber
   * number, or None when the string does not match.
   */
  function MatchPattern(prefixes: seq<string>, s: string): (r: Option<string>)
    ensures r.Some? <==> InPattern(prefixes, s)
    ensures r.Some? ==> |s| >= 9 && r.value == s[|s| - 9..] && IsSubscriber(r.value)
  {
    if prefixes == [] then
      if IsSubscriber(s) then
        assert s[..0] == [] && s[0..] == s;
        Some(s)
      else None
    else
      var p := prefixes[0];
      assert forall k :: 0 < k <= |s| && s[..k] == p ==> StartsWith(s, p) && s[|p|..] == s[k..];
      if StartsWith(s, p) && IsSubscriber(s[|p|..]) then
        assert |p| == 0 || s[..|p|] in prefixes;
        Some(s[|p|..])
      else
        var r := MatchPattern(prefixes[1..], s);
        assert InPattern(prefixes, s) ==> InPattern(prefixes[1..], s) by {
          if InPattern(prefixes, s) {
            var k :| 0 <= k <= |s| && (k == 0 || s[..k] in prefixes) && IsSubscriber(s[k..]);
            assert k == 0 || s[..k] in prefixes[1..];
          }
        }
        r
  }

  /** The order of the alternatives does not change which strings match (server.js:77 against Donate.js:49). */
  lemma PrefixOrderIrrelevant(s: string)
    ensures MatchPattern(ServerPrefixes, s).Some? <==> MatchPattern(DonatePrefixes, s).Some?
    ensures MatchPattern(ServerPrefixes, s) == MatchPattern(DonatePrefixes, s)
  {
    var a, b := MatchPattern(ServerPrefixes, s), MatchPattern(DonatePrefixes, s);
    forall x ensures x in ServerPrefixes <==> x in DonatePrefixes {}
    if a.Some? {
      var k :| 0 <= k <= |s| && (k == 0 || s[..k] in ServerPrefixes) && IsSubscriber(s[k..]);
      assert InPattern(DonatePrefixes, s);
    }
    if b.Some? {
      var k :| 0 <= k <= |s| && (k == 0 || s[..k] in DonatePrefixes) && IsSubscriber(s[k..]);
      assert InPattern(ServerPrefixes, s);
    }
  }

  /** The four shapes the pattern accepts: bare, `0`-, `254`- and `+254`-prefixed. */
  predicate IsKenyanMobile(s: string) {
    || IsSubscriber(s)
    || (|s| == 10 && s[0] == '0' && IsSubscriber(s[1..]))
    || (|s| == 12 && s[..3] == "254" && IsSubscriber(s[3..]))
    || (|s| == 13 && s[..4] == "+254" && IsSubscriber(s[4..]))
  }

  /** The strings the pattern accepts are exactly the four shapes of the number. */
  lemma PatternShapes(s: string)
    ensures MatchPattern(ServerPrefixes, s).Some? <==> IsKenyanMobile(s)
  {
    if IsKenyanMobile(s) {
      MatchOfShapes(s);
    }
    if MatchPattern(ServerPrefixes, s).Some? {
      ShapesOfMatch(s);
    }
  }

  lemma MatchOfShapes(s: string)
    requires IsKenyanMobile(s)
    ensures InPattern(ServerPrefixes, s)
  {
    var k := |s| - 9;
    if k == 0 {
      assert s[0..] == s;
    } else if k == 1 {
      assert s[..1] == "0";
    } else {
      assert s[..k] in ServerPrefixes;
    }
  }

  lemma ShapesOfMatch(s: string)
    requires InPattern(ServerPrefixes, s)
    ensures IsKenyanMobile(s)
  {
    var k :| 0 <= k <= |s| && (k == 0 || s[..k] in ServerPrefixes) && IsSubscriber(s[k..]);
    if k == 0 {
      assert s[0..] == s;
    } else if s[..k] == "0" {
      assert s[0] == s[..k][0];
    }
  }
}
