/**
 * The recipient list of the email dialog: the raw text of the recipients
 * field is split at every comma and each piece is trimmed of surrounding
 * white space (src/App.jsx:75). Nothing is filtered, de-duplicated or
 * validated as an address.
 */
module Recipients {

  /** White space as the JavaScript `trim` method strips it: the
      ECMAScript WhiteSpace and LineTerminator code points. This is an
      abstraction of the host's table (category Zs is written out as of
      Unicode 15); Dafny characters are code points, so surrogate pairs
      do not arise. */
  predicate IsWs(c: char) {
    || c == '\t' || c == '\n' || c == '\U{000B}' || c == '\U{000C}' || c == '\r'
    || c == ' ' || c == '\U{00A0}' || c == '\U{1680}'
    || ('\U{2000}' <= c <= '\U{200A}')
    || c == '\U{2028}' || c == '\U{2029}' || c == '\U{202F}' || c == '\U{205F}'
    || c == '\U{3000}' || c == '\U{FEFF}'
  }

  predicate AllWs(s: string) {
    forall i :: 0 <= i < |s| ==> IsWs(s[i])
  }

  /** Neither the first nor the last character is white space. */
  predicate NoEdgeWs(s: string) {
    s == [] || (!IsWs(s[0]) && !IsWs(s[|s| - 1]))
  }

  predicate CommaFree(s: string) {
    forall i :: 0 <= i < |s| ==> s[i] != ','
  }

  /** The first index at or after `i` that does not hold white space
      (`|s|` if there is none). */
  function SkipWsForward(s: string, i: nat): (k: nat)
    requires i <= |s|
    ensures i <= k <= |s|
    ensures forall m :: i <= m < k ==> IsWs(s[m])
    ensures k < |s| ==> !IsWs(s[k])
    decreases |s| - i
  {
    if i < |s| && IsWs(s[i]) then SkipWsForward(s, i + 1) else i
  }

  /** The end of the content of `s[lo..j]`: the least index `k >= lo` such
      that `s[k..j]` is all white space. */
  function SkipWsBackward(s: string, lo: nat, j: nat): (k: nat)
    requires lo <= j <= |s|
    ensures lo <= k <= j
    ensures forall m :: k <= m < j ==> IsWs(s[m])
    ensures k > lo ==> !IsWs(s[k - 1])
    decreases j
  {
    if j > lo && IsWs(s[j - 1]) then SkipWsBackward(s, lo, j - 1) else j
  }

  /** `r` is `s[i..j]` and everything of `s` outside that window is white space. */
  predicate TrimWindow(s: string, r: string, i: int, j: int) {
    0 <= i <= j <= |s| && r == s[i..j] && AllWs(s[..i]) && AllWs(s[j..])
  }

  /** String.prototype.trim: the leading white space is skipped, then the
      trailing white space of what is left. The result is empty exactly
      when the input is all white space; TrimShape says what else it is. */
  function Trim(s: string): (r: string)
    ensures r == [] <==> AllWs(s)
  {
    var i := SkipWsForward(s, 0);
    var j := SkipWsBackward(s, i, |s|);
    TrimWindowOfBounds(s, i, j);
    s[i..j]
  }

  /** Trim cuts a window out of its input with only white space outside it
      and none at the window's ends. */
  lemma TrimShape(s: string)
    ensures exists i, j :: TrimWindow(s, Trim(s), i, j)
    ensures NoEdgeWs(Trim(s))
  {
    var i := SkipWsForward(s, 0);
    var j := SkipWsBackward(s, i, |s|);
    TrimWindowOfBounds(s, i, j);
    assert Trim(s) == s[i..j];
  }

  /** What the two scans promise, composed: `s[i..j]` is a trimmed window. */
  lemma TrimWindowOfBounds(s: string, i: nat, j: nat)
    requires i <= j <= |s|
    requires forall m :: 0 <= m < i ==> IsWs(s[m])
    requires i < |s| ==> !IsWs(s[i])
    requires forall m :: j <= m < |s| ==> IsWs(s[m])
    requires j > i ==> !IsWs(s[j - 1])
    ensures TrimWindow(s, s[i..j], i, j)
    ensures NoEdgeWs(s[i..j])
    ensures s[i..j] == [] <==> AllWs(s)
  {
  }

  /** Number of commas in `s[i..]`. */
  function CommasFrom(s: string, i: nat): nat
    requires i <= |s|
    decreases |s| - i
  {
    if i == |s| then 0 else (if s[i] == ',' then 1 else 0) + CommasFrom(s, i + 1)
  }

  /** Number of commas in `s`. */
  function CommaCount(s: string): nat {
    CommasFrom(s, 0)
  }

  /** A stretch without commas adds nothing to the count. */
  lemma {:induction false} CommasFromSkip(s: string, i: nat, k: nat)
    requires i <= k <= |s|
    requires forall m :: i <= m < k ==> s[m] != ','
    ensures CommasFrom(s, i) == CommasFrom(s, k)
    decreases k - i
  {
    if i < k {
      CommasFromSkip(s, i + 1, k);
    }
  }

  /** The pieces joined back together with a comma between neighbours. */
  function Join(parts: seq<string>): string
    requires |parts| > 0
  {
    if |parts| == 1 then parts[0] else parts[0] + "," + Join(parts[1..])
  }

  /** The first comma at or after `i` (`|s|` if there is none). */
  function NextComma(s: string, i: nat): (k: nat)
    requires i <= |s|
    ensures i <= k <= |s|
    ensures forall m :: i <= m < k ==> s[m] != ','
    ensures k < |s| ==> s[k] == ','
    decreases |s| - i
  {
    if i < |s| && s[i] != ',' then NextComma(s, i + 1) else i
  }

  /** The pieces of `s[i..]`, as String.prototype.split(",") cuts them:
      from `i` up to the next comma, then on after it. */
  function SplitFrom(s: string, i: nat): (parts: seq<string>)
    requires i <= |s|
    ensures |parts| == CommasFrom(s, i) + 1
    ensures forall p :: 0 <= p < |parts| ==> CommaFree(parts[p])
    decreases |s| - i
  {
    var k := NextComma(s, i);
    CommasFromSkip(s, i, k);
    if k == |s| then [s[i..]] else [s[i..k]] + SplitFrom(s, k + 1)
  }

  /** String.prototype.split(","): the pieces between the commas, empty
      ones included; the empty string gives one empty piece. */
  function Split(s: string): (parts: seq<string>)
    ensures |parts| == CommaCount(s) + 1
    ensures forall p :: 0 <= p < |parts| ==> CommaFree(parts[p])
  {
    SplitFrom(s, 0)
  }

  /** Joining the pieces gives back the text they were cut from. */
  lemma {:induction false} JoinSplitFrom(s: string, i: nat)
    requires i <= |s|
    ensures Join(SplitFrom(s, i)) == s[i..]
    decreases |s| - i
  {
    var k := NextComma(s, i);
    if k < |s| {
      var rest := SplitFrom(s, k + 1);
      JoinSplitFrom(s, k + 1);
      var parts := [s[i..k]] + rest;
      assert SplitFrom(s, i) == parts;
      assert parts[1..] == rest;
      assert Join(parts) == s[i..k] + "," + s[k + 1..];
      assert s[i..] == s[i..k] + "," + s[k + 1..];
    }
  }

  /** A comma-free `head` at the front of `s[i..]` is the stretch that
      NextComma skips when `rest` is empty or starts with a comma. */
  lemma NextCommaAfterHead(s: string, i: nat, head: string, rest: string)
    requires i <= |s| && s[i..] == head + rest && CommaFree(head)
    requires rest == [] || rest[0] == ','
    ensures NextComma(s, i) == i + |head|
    ensures s[i..i + |head|] == head && s[i + |head|..] == rest
  {
    var n := |head|;
    forall m | i <= m < i + n
      ensures s[m] != ','
    {
      assert s[m] == s[i..][m - i] == head[m - i];
    }
    if rest != [] {
      assert s[i + n] == s[i..][n] == rest[0];
    }
    assert s[i..i + n] == s[i..][..n];
    assert s[i + n..] == s[i..][n..];
  }

  /** Comma-free pieces joined by commas from `i` on are what SplitFrom
      cuts out again. */
  lemma {:induction false} SplitFromJoin(s: string, i: nat, parts: seq<string>)
    requires i <= |s| && |parts| > 0
    requires forall p :: 0 <= p < |parts| ==> CommaFree(parts[p])
    requires Join(parts) == s[i..]
    ensures SplitFrom(s, i) == parts
    decreases |parts|
  {
    var head := parts[0];
    if |parts| == 1 {
      NextCommaAfterHead(s, i, head, "");
    } else {
      var tail := parts[1..];
      NextCommaAfterHead(s, i, head, "," + Join(tail));
      var k := i + |head|;
      assert s[k + 1..] == Join(tail);
      SplitFromJoin(s, k + 1, tail);
    }
  }

  /** Round trip: Split and Join are inverse; Split is the unique way of
      writing its input as comma-free pieces joined by commas. */
  lemma SplitJoinRoundTrip(s: string, parts: seq<string>)
    ensures Join(Split(s)) == s
    ensures |parts| > 0 && (forall p :: 0 <= p < |parts| ==> CommaFree(parts[p])) ==>
      Split(Join(parts)) == parts
  {
    JoinSplitFrom(s, 0);
    assert s[0..] == s;
    if |parts| > 0 && (forall p :: 0 <= p < |parts| ==> CommaFree(parts[p])) {
      var t := Join(parts);
      assert t[0..] == t;
      SplitFromJoin(t, 0, parts);
    }
  }

  /** Trimming keeps a comma-free piece comma-free. */
  lemma TrimCommaFree(s: string)
    requires CommaFree(s)
    ensures CommaFree(Trim(s))
  {
  }

  /** `raw.split(',').map(email => email.trim())` */
  function ParseRecipients(raw: string): (r: seq<string>)
    ensures |r| == CommaCount(raw) + 1
    ensures forall i :: 0 <= i < |r| ==> CommaFree(r[i]) && NoEdgeWs(r[i])
    ensures forall i :: 0 <= i < |r| ==> r[i] == Trim(Split(raw)[i])
  {
    var pieces := Split(raw);
    forall i | 0 <= i < |pieces|
      ensures CommaFree(Trim(pieces[i])) && NoEdgeWs(Trim(pieces[i]))
    {
      TrimCommaFree(pieces[i]);
      TrimShape(pieces[i]);
    }
    seq(|pieces|, i requires 0 <= i < |pieces| => Trim(pieces[i]))
  }

  /** A window meeting the three promises of Trim around `body` is `body`. */
  lemma WindowUnique(lead: string, body: string, trail: string, r: string, i: int, j: int)
    requires AllWs(lead) && AllWs(trail) && NoEdgeWs(body)
    requires TrimWindow(lead + body + trail, r, i, j) && NoEdgeWs(r)
    requires r == [] <==> AllWs(lead + body + trail)
    ensures r == body
  {
    var s := lead + body + trail;
    if body == [] {
      assert AllWs(s) by {
        forall k | 0 <= k < |s| ensures IsWs(s[k]) {
          if k < |lead| { assert s[k] == lead[k]; } else { assert s[k] == trail[k - |lead|]; }
        }
      }
    } else {
      var n := |lead| + |body|;
      assert s[|lead|] == body[0];
      assert s[n - 1] == body[|body| - 1];
      assert i == |lead|;
      assert j == n;
      assert s[|lead|..n] == body;
    }
  }
  /** Trim is characterised by its result: surrounding a string without
      white space at its ends by white space and trimming gives it back. */
  lemma TrimCharacterized(lead: string, body: string, trail: string)
    requires AllWs(lead) && AllWs(trail) && NoEdgeWs(body)
    ensures Trim(lead + body + trail) == body
  {
    var s := lead + body + trail;
    TrimShape(s);
    var r := Trim(s);
    var i, j :| TrimWindow(s, r, i, j);
    WindowUnique(lead, body, trail, r, i, j);
  }

  /** Trimming twice is the same as trimming once. */
  lemma TrimIdempotent(s: string)
    ensures Trim(Trim(s)) == Trim(s)
  {
  }

  /** Empty pieces are kept: ",," passes the non-blank guard of the send
      handler and yields three empty recipients. */
  lemma EmptyPiecesKept()
    ensures Trim(",,") != ""
    ensures ParseRecipients(",,") == ["", "", ""]
  {
  }

  // Helpers of TwoAddresses, one fact each: the solver evaluates Trim and
  // Split on literal arguments, which is costly when the facts share a proof.
  lemma SplitTwoAddresses()
    ensures Split("a@x.com, b@y.com") == ["a@x.com", " b@y.com"]
  {
    var s := "a@x.com, b@y.com";
    var parts := ["a@x.com", " b@y.com"];
    assert parts[1..] == [" b@y.com"];
    assert Join(parts) == s[0..];
    assert CommaFree(parts[0]) && CommaFree(parts[1]);
    SplitFromJoin(s, 0, parts);
  }

  lemma TrimFirstAddress()
    ensures Trim("a@x.com") == "a@x.com"
  {
  }

  lemma TrimSecondAddress()
    ensures Trim(" b@y.com") == "b@y.com"
  {
  }

  /** "a@x.com, b@y.com" parses to exactly the two trimmed addresses. */
  lemma TwoAddresses()
    ensures |ParseRecipients("a@x.com, b@y.com")| == 2
    ensures ParseRecipients("a@x.com, b@y.com")[0] == "a@x.com"
    ensures ParseRecipients("a@x.com, b@y.com")[1] == "b@y.com"
  {
    SplitTwoAddresses();
    TrimFirstAddress();
    TrimSecondAddress();
  }

  /** The same, as one sequence. */
  lemma TwoAddressesParsed()
    ensures ParseRecipients("a@x.com, b@y.com") == ["a@x.com", "b@y.com"]
  {
    TwoAddresses();
  }
}
