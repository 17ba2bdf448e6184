/**
 * Field scanners for the labelled replies the analysis components request
 * ("VERDICT: ACQUIRE", "CONFIDENCE: 88/100", ...). Each scanner returns what
 * `reply.match(/LABEL:\s*(...)/i)?.[1]` returns for the patterns used in
 * src/components/CoinAgent.js and src/components/DataCenterHome.js.
 *
 * How the patterns reduce. A regex match starts at the leftmost position
 * where the whole pattern matches. The label is matched case-insensitively
 * (without the `u` flag only ASCII letters fold onto the label's capitals).
 * `\s*` is greedy, and giving whitespace back never helps a group that must
 * start with a letter or a digit, so such a label counts only when its group
 * matches right after the whitespace run. A `(.+)` or `(.+?)` group fails
 * only when nothing but whitespace follows the label, and then no later label
 * can exist, so these groups are decided at the first label occurrence.
 */
module ReplyScan {
  import opened Base
  import opened JsText

  /**
   * What a component's request to the agent route came back with: the
   * request or the reading of its JSON body threw, or the body was read and
   * its `reply` is a string or missing/null.
   */
  datatype Delivery = Undelivered | Delivered(reply: Option<string>)

  /** `if (data.reply)`: the reply is present and not empty. */
  predicate HasReply(d: Delivery) {
    d.Delivered? && d.reply.Some? && d.reply.value != ""
  }

  /** The group that follows `LABEL:\s*` in a pattern. */
  datatype Group =
    | OneOf(options: seq<string>)   // `(A|B|C)`, upper-case ASCII alternatives
    | DigitRun(suffix: string)      // `(\d+)` followed by a literal suffix ("" for none)
    | Decimal(suffix: string)       // `(\d+\.?\d*)` followed by a literal suffix
    | AnyText                       // `(.+)` or `(.+?)(?=…|$)`

  /** The first of `options` that matches at `p`, as a case-insensitive alternation tries them. */
  function KeywordAt(s: string, p: nat, options: seq<string>): (r: Option<string>)
    ensures r.Some? ==> r.value in options && MatchesAt(s, p, r.value)
    ensures r.None? ==> forall k :: 0 <= k < |options| ==> !MatchesAt(s, p, options[k])
    decreases |options|
  {
    if options == [] then None
    else if MatchesAt(s, p, options[0]) then Some(options[0])
    else KeywordAt(s, p, options[1..])
  }

  /** The end of `\d+\.?\d*` at `p`, when at least one digit is there. */
  function DecimalEnd(s: string, p: nat): (r: Option<nat>)
    requires p <= |s|
    ensures r.Some? ==> p < r.value <= |s| && IsDigit(s[p])
  {
    var a := SkipDigits(s, p);
    if a == p then None
    else if a < |s| && s[a] == '.' then Some(SkipDigits(s, a + 1))
    else Some(a)
  }

  /** The group matches after the label that ends at `e` (its `\s*` already skipped). */
  predicate GroupAt(s: string, e: nat, g: Group)
    requires e <= |s|
  {
    var p := SkipSpaces(s, e);
    match g
    case OneOf(options) => KeywordAt(s, p, options).Some?
    case DigitRun(suffix) => SkipDigits(s, p) > p && MatchesAt(s, SkipDigits(s, p), suffix)
    case Decimal(suffix) => DecimalEnd(s, p).Some? && MatchesAt(s, DecimalEnd(s, p).value, suffix)
    case AnyText => true
  }

  /** The label occurs at `k` and the group matches after it. */
  predicate MatchAt(s: string, k: nat, key: string, g: Group) {
    MatchesAt(s, k, key) && GroupAt(s, k + |key|, g)
  }

  /** The leftmost position at or after `from` where the label and its group match. */
  function FindMatch(s: string, key: string, g: Group, from: nat): (r: Option<nat>)
    ensures r.Some? ==> from <= r.value && MatchAt(s, r.value, key, g)
    ensures r.Some? ==> forall k :: from <= k < r.value ==> !MatchAt(s, k, key, g)
    ensures r.None? ==> forall k :: from <= k ==> !MatchAt(s, k, key, g)
    decreases |s| - from
  {
    if from + |key| > |s| then None
    else if MatchAt(s, from, key, g) then Some(from)
    else FindMatch(s, key, g, from + 1)
  }

  /**
   * Where the group's text starts at the leftmost match of the label and its
   * group: just past the label and the blanks after it.
   */
  function CaptureStart(s: string, key: string, g: Group): (p: Option<nat>)
    ensures p.Some? <==> exists k :: MatchAt(s, k, key, g)
    ensures p.Some? ==> p.value <= |s| && exists k: nat ::
      && MatchAt(s, k, key, g) && (forall j :: 0 <= j < k ==> !MatchAt(s, j, key, g))
      && p.value == SkipSpaces(s, k + |key|)
  {
    var m := FindMatch(s, key, g, 0);
    if m.None? then None
    else
      assert MatchAt(s, m.value, key, g);
      Some(SkipSpaces(s, m.value + |key|))
  }

  /**
   * `s.match(/LABEL:\s*(A|B|C)/i)?.[1]?.toUpperCase()`: the alternative
   * whose text, upper-cased, starts the capture at the leftmost match, or
   * nothing when the pattern matches nowhere.
   */
  function KeywordField(s: string, key: string, options: seq<string>): (r: Option<string>)
    ensures r.Some? <==> exists k :: MatchAt(s, k, key, OneOf(options))
    ensures r.Some? ==> r.value in options && MatchesAt(s, CaptureStart(s, key, OneOf(options)).value, r.value)
  {
    var p := CaptureStart(s, key, OneOf(options));
    if p.None? then None else KeywordAt(s, p.value, options)
  }

  /** The number `parseInt` reads from the run of digits at `p`. */
  function DigitsAt(s: string, p: nat): nat
    requires p <= |s|
  {
    DigitsValue(s[p..SkipDigits(s, p)])
  }

  /**
   * `parseInt(s.match(/LABEL:\s*(\d+)SUFFIX/i)[1])`: the digits that start
   * the capture at the leftmost match, or nothing when there is no match.
   */
  function DigitField(s: string, key: string, suffix: string): (r: Option<nat>)
    ensures r.Some? <==> exists k :: MatchAt(s, k, key, DigitRun(suffix))
    ensures r.Some? ==> r.value == DigitsAt(s, CaptureStart(s, key, DigitRun(suffix)).value)
  {
    var p := CaptureStart(s, key, DigitRun(suffix));
    if p.None? then None else Some(DigitsAt(s, p.value))
  }

  function Pow10(n: nat): (r: nat)
    ensures r >= 1
  {
    if n == 0 then 1 else 10 * Pow10(n - 1)
  }

  /** The exact value of the decimal text "I" or "I." or "I.F" (`parseFloat` before rounding to a double). */
  function DecimalValue(text: string): (r: real)
    requires |text| > 0 && IsDigit(text[0])
    ensures r >= 0.0
  {
    var a := SkipDigits(text, 0);
    var whole := DigitsValue(text[..a]) as real;
    if a < |text| && text[a] == '.' then
      var b := SkipDigits(text, a + 1);
      var fraction := DigitsValue(text[a + 1..b]) as real;
      var scale := Pow10(b - a - 1) as real;
      assert fraction / scale >= 0.0;
      whole + fraction / scale
    else whole
  }

  /** The exact value of the decimal number that starts at `p`, when one does. */
  function DecimalAt(s: string, p: nat): (r: Option<real>)
    requires p <= |s|
    ensures r.Some? <==> DecimalEnd(s, p).Some?
    ensures r.Some? ==> r.value >= 0.0
  {
    var q := DecimalEnd(s, p);
    if q.None? then None
    else
      assert s[p..q.value][0] == s[p];
      Some(DecimalValue(s[p..q.value]))
  }

  /**
   * `parseFloat(s.match(/LABEL:\s*(\d+\.?\d*)SUFFIX/i)[1])` as an exact
   * value: the decimal that starts the capture at the leftmost match, or
   * nothing when there is no match.
   */
  function DecimalField(s: string, key: string, suffix: string): (r: Option<real>)
    ensures r.Some? <==> exists k :: MatchAt(s, k, key, Decimal(suffix))
    ensures r.Some? ==> r.value >= 0.0
    ensures r.Some? ==> r == DecimalAt(s, CaptureStart(s, key, Decimal(suffix)).value)
  {
    if CaptureStart(s, key, Decimal(suffix)).None? then None
    else DecimalAt(s, CaptureStart(s, key, Decimal(suffix)).value)
  }

  /** The first place the label occurs, whatever follows it. */
  function FirstLabel(s: string, key: string): (r: Option<nat>)
    ensures r.Some? ==> MatchesAt(s, r.value, key)
    ensures r.Some? ==> forall k :: 0 <= k < r.value ==> !MatchesAt(s, k, key)
    ensures r.None? ==> forall k :: !MatchesAt(s, k, key)
  {
    var r := FindMatch(s, key, AnyText, 0);
    assert forall k: nat :: MatchAt(s, k, key, AnyText) <==> MatchesAt(s, k, key);
    r
  }

  /**
   * What `(.+)` captures at `p`, trimmed: the rest of the line. When only
   * whitespace follows the label, the group takes one character that `\s*`
   * gives back, and trimming leaves "".
   */
  function LineText(s: string, p: nat): (r: string)
    requires p <= |s|
    ensures forall k :: 0 <= k < |r| ==> !IsLineTerminator(r[k])
    ensures r != "" ==> !IsSpace(r[0]) && !IsSpace(r[|r| - 1])
  {
    if p < |s| then
      var text := s[p..LineEnd(s, p)];
      var t := Trim(text);
      assert forall k :: 0 <= k < |t| ==> !IsLineTerminator(t[k]) by {
        var lo, hi :| 0 <= lo <= hi <= |text| && t == text[lo..hi];
        assert forall k :: 0 <= k < |t| ==> t[k] == s[p + lo + k];
      }
      t
    else ""
  }

  /** The line-terminator-free text right after the label, trimmed: `s.match(/LABEL:\s*(.+)/i)?.[1]?.trim()`. */
  function LineField(s: string, key: string): (r: Option<string>)
    ensures r.Some? ==> FirstLabel(s, key).Some?
    ensures r.Some? <==>
      FirstLabel(s, key).Some? &&
      exists j :: FirstLabel(s, key).value + |key| <= j < |s| && !IsLineTerminator(s[j])
    ensures r.Some? ==> r.value == LineText(s, SkipSpaces(s, FirstLabel(s, key).value + |key|))
    ensures r.Some? ==> forall k :: 0 <= k < |r.value| ==> !IsLineTerminator(r.value[k])
    ensures r.Some? && r.value != "" ==> !IsSpace(r.value[0]) && !IsSpace(r.value[|r.value| - 1])
  {
    if FirstLabel(s, key).Some? && exists j :: FirstLabel(s, key).value + |key| <= j < |s| && !IsLineTerminator(s[j]) then
      Some(LineText(s, SkipSpaces(s, FirstLabel(s, key).value + |key|)))
    else None
  }

  /**
   * The text from the label up to the next `stop` label or the end,
   * trimmed: `s.match(/LABEL:\s*(.+?)(?=STOP|$)/is)?.[1]?.trim()`. With the
   * `s` flag `.` also matches line terminators, and `$` is the end of the
   * reply.
   */
  function BlockField(s: string, key: string, stop: string): (r: Option<string>)
    ensures r.Some? ==> FirstLabel(s, key).Some?
    ensures r.Some? <==> FirstLabel(s, key).Some? && FirstLabel(s, key).value + |key| < |s|
    ensures r.Some? ==> r.value == BlockText(s, stop, SkipSpaces(s, FirstLabel(s, key).value + |key|))
    ensures r.Some? && r.value != "" ==> !IsSpace(r.value[0]) && !IsSpace(r.value[|r.value| - 1])
  {
    if FirstLabel(s, key).Some? && FirstLabel(s, key).value + |key| < |s| then
      Some(BlockText(s, stop, SkipSpaces(s, FirstLabel(s, key).value + |key|)))
    else None
  }

  /**
   * What `(.+?)(?=STOP|$)` captures at `p`, trimmed: the text up to the next
   * `stop` label or the end. When only whitespace follows the label, the
   * group takes one character that `\s*` gives back, and trimming leaves "".
   */
  function BlockText(s: string, stop: string, p: nat): (r: string)
    requires p <= |s|
    ensures r != "" ==> !IsSpace(r[0]) && !IsSpace(r[|r| - 1])
  {
    if p < |s| then Trim(s[p..StopAt(s, stop, p + 1)]) else ""
  }

  /** The first position at or after `from` where `stop` begins (case-insensitively), or the end. */
  function StopAt(s: string, stop: string, from: nat): (q: nat)
    requires from <= |s|
    ensures from <= q <= |s|
    ensures q < |s| ==> MatchesAt(s, q, stop)
    ensures forall k :: from <= k < q ==> !MatchesAt(s, k, stop)
    decreases |s| - from
  {
    if from == |s| || MatchesAt(s, from, stop) then from else StopAt(s, stop, from + 1)
  }

  /** The label occurs and something other than `\s` follows it. */
  predicate HasText(s: string, key: string) {
    FirstLabel(s, key).Some? && SkipSpaces(s, FirstLabel(s, key).value + |key|) < |s|
  }

  /** Where the text after the first label starts, past the blanks. */
  function TextStart(s: string, key: string): (p: nat)
    requires HasText(s, key)
    ensures FirstLabel(s, key).value + |key| <= p < |s| && !IsSpace(s[p])
  {
    SkipSpaces(s, FirstLabel(s, key).value + |key|)
  }

  /** The rest of the line from the text after the first label, trimmed. */
  function LineAfter(s: string, key: string): string
    requires HasText(s, key)
  {
    Trim(s[TextStart(s, key)..LineEnd(s, TextStart(s, key))])
  }

  /** The text after the first label up to the next `stop` label or the end, trimmed. */
  function BlockAfter(s: string, key: string, stop: string): string
    requires HasText(s, key)
  {
    Trim(s[TextStart(s, key)..StopAt(s, stop, TextStart(s, key) + 1)])
  }

  /** A slice of `s` from `p` that starts with a non-blank character does not trim to "". */
  lemma TrimFromTextNotEmpty(s: string, p: nat, q: nat)
    requires p < q <= |s| && !IsSpace(s[p])
    ensures Trim(s[p..q]) != ""
  {
    TrimEmptyIffBlank(s[p..q]);
    assert s[p..q][0] == s[p];
  }

  /**
   * When text follows the label, `(.+)` captures it up to the line's end and
   * the trimmed capture is not empty; when only blanks follow, the capture
   * trims to "" or the pattern does not match.
   */
  lemma LineFieldText(s: string, key: string)
    ensures HasText(s, key) ==> LineField(s, key) == Some(LineAfter(s, key)) && LineAfter(s, key) != ""
    ensures !HasText(s, key) ==> LineField(s, key).None? || LineField(s, key) == Some("")
  {
    if HasText(s, key) {
      var p := TextStart(s, key);
      TrimFromTextNotEmpty(s, p, LineEnd(s, p));
    }
  }

  /**
   * When text follows the label, `(.+?)` captures it up to the next `stop`
   * label or the end and the trimmed capture is not empty; when only blanks
   * follow, the capture trims to "" or the pattern does not match.
   */
  lemma BlockFieldText(s: string, key: string, stop: string)
    ensures HasText(s, key) ==> BlockField(s, key, stop) == Some(BlockAfter(s, key, stop)) && BlockAfter(s, key, stop) != ""
    ensures !HasText(s, key) ==> BlockField(s, key, stop).None? || BlockField(s, key, stop) == Some("")
  {
    if HasText(s, key) {
      var p := TextStart(s, key);
      TrimFromTextNotEmpty(s, p, StopAt(s, stop, p + 1));
    }
  }

  // ------------------------------------------------------- bullet points

  /** The separators of `split(/[,\n]/)`. */
  predicate IsPointSeparator(c: char) {
    c == ',' || c == '\n'
  }

  predicate NoSeparator(s: string) {
    forall k :: 0 <= k < |s| ==> !IsPointSeparator(s[k])
  }

  /** The first separator at or after `i`, or the end. */
  function NextSeparator(s: string, i: nat): (j: nat)
    requires i <= |s|
    ensures i <= j <= |s|
    ensures j < |s| ==> IsPointSeparator(s[j])
    ensures forall k :: i <= k < j ==> !IsPointSeparator(s[k])
    decreases |s| - i
  {
    if i == |s| || IsPointSeparator(s[i]) then i else NextSeparator(s, i + 1)
  }

  /** `s.split(/[,\n]/)`: the pieces between separators, empty ones included. */
  function SplitPoints(s: string): (r: seq<string>)
    ensures |r| >= 1
    ensures forall k :: 0 <= k < |r| ==> NoSeparator(r[k])
    decreases |s|
  {
    var i := NextSeparator(s, 0);
    if i == |s| then [s] else [s[..i]] + SplitPoints(s[i + 1..])
  }

  /** The reference reading of a split: the text with its separators deleted ... */
  function WithoutSeparators(s: string): string {
    if s == [] then []
    else (if IsPointSeparator(s[0]) then [] else [s[0]]) + WithoutSeparators(s[1..])
  }

  /** ... and how many separators it has. */
  function SeparatorCount(s: string): nat {
    if s == [] then 0
    else (if IsPointSeparator(s[0]) then 1 else 0) + SeparatorCount(s[1..])
  }

  function Concat(ss: seq<string>): string {
    if ss == [] then [] else ss[0] + Concat(ss[1..])
  }

  lemma {:induction false} SeparatorFreeParts(a: string, b: string)
    requires NoSeparator(a)
    ensures WithoutSeparators(a + b) == a + WithoutSeparators(b)
    ensures SeparatorCount(a + b) == SeparatorCount(b)
    decreases |a|
  {
    if a != [] {
      var ab := a + b;
      assert ab[0] == a[0] && !IsPointSeparator(a[0]);
      assert ab[1..] == a[1..] + b;
      assert NoSeparator(a[1..]) by {
        forall k | 0 <= k < |a[1..]| ensures !IsPointSeparator(a[1..][k]) {
          assert a[1..][k] == a[k + 1];
        }
      }
      SeparatorFreeParts(a[1..], b);
      calc {
        WithoutSeparators(ab);
        [a[0]] + WithoutSeparators(a[1..] + b);
        [a[0]] + (a[1..] + WithoutSeparators(b));
        { assert [a[0]] + a[1..] == a; }
        a + WithoutSeparators(b);
      }
    } else {
      assert a + b == b;
    }
  }

  /**
   * The split loses exactly the separators: its pieces joined give the text
   * without separators, and there is one piece more than separators.
   * Together with the pieces being separator-free this pins the split down.
   */
  lemma {:induction false} SplitPointsCharacterised(s: string)
    ensures Concat(SplitPoints(s)) == WithoutSeparators(s)
    ensures |SplitPoints(s)| == SeparatorCount(s) + 1
    decreases |s|
  {
    var i := NextSeparator(s, 0);
    assert NoSeparator(s[..i]) by {
      forall k | 0 <= k < i ensures !IsPointSeparator(s[..i][k]) {
        assert s[..i][k] == s[k];
      }
    }
    if i == |s| {
      assert s[..i] == s && s + [] == s;
      SeparatorFreeParts(s, []);
      assert Concat([s]) == s + Concat([]);
    } else {
      var rest := s[i + 1..];
      SplitPointsCharacterised(rest);
      SeparatorStep(s, i);
      var pieces := [s[..i]] + SplitPoints(rest);
      assert pieces[0] == s[..i] && pieces[1..] == SplitPoints(rest);
    }
  }

  /** Cutting a text at its first separator. */
  lemma SeparatorStep(s: string, i: nat)
    requires i < |s| && NoSeparator(s[..i]) && IsPointSeparator(s[i])
    ensures WithoutSeparators(s) == s[..i] + WithoutSeparators(s[i + 1..])
    ensures SeparatorCount(s) == SeparatorCount(s[i + 1..]) + 1
  {
    var head, rest := s[..i], s[i + 1..];
    var tail := [s[i]] + rest;
    SeparatorFreeParts(head, tail);
    assert WithoutSeparators(tail) == WithoutSeparators(rest) by {
      assert tail[1..] == rest;
    }
    assert SeparatorCount(tail) == SeparatorCount(rest) + 1 by {
      assert tail[1..] == rest;
    }
    assert head + tail == s;
  }

  /** `.map(p => p.trim())`. */
  function TrimEach(ps: seq<string>): (r: seq<string>)
    ensures |r| == |ps|
    ensures forall k :: 0 <= k < |ps| ==> r[k] == Trim(ps[k])
  {
    if ps == [] then [] else [Trim(ps[0])] + TrimEach(ps[1..])
  }

  /**
   * `.filter(p => p)`: the non-empty strings, each as often as in `ps`
   * (their order is kept, as `NonEmptyAppend` shows).
   */
  function NonEmpty(ps: seq<string>): (r: seq<string>)
    ensures |r| <= |ps|
    ensures forall x :: multiset(r)[x] == if x == "" then 0 else multiset(ps)[x]
  {
    if ps == [] then []
    else
      assert ps == [ps[0]] + ps[1..];
      (if ps[0] != "" then [ps[0]] else []) + NonEmpty(ps[1..])
  }

  /** What is kept is not empty and comes from `ps`, and every non-empty string of `ps` is kept. */
  lemma NonEmptyMembers(ps: seq<string>)
    ensures forall k :: 0 <= k < |NonEmpty(ps)| ==> NonEmpty(ps)[k] != "" && NonEmpty(ps)[k] in ps
    ensures forall k :: 0 <= k < |ps| && ps[k] != "" ==> ps[k] in NonEmpty(ps)
  {
    var r := NonEmpty(ps);
    forall k | 0 <= k < |r|
      ensures r[k] != "" && r[k] in ps
    {
      assert r[k] in multiset(r);
    }
    forall k | 0 <= k < |ps| && ps[k] != ""
      ensures ps[k] in r
    {
      assert ps[k] in multiset(ps);
    }
  }

  /** Filtering a concatenation filters each part: the kept strings stay in their order. */
  lemma {:induction false} NonEmptyAppend(a: seq<string>, b: seq<string>)
    ensures NonEmpty(a + b) == NonEmpty(a) + NonEmpty(b)
  {
    if a == [] {
      assert a + b == b;
    } else {
      assert (a + b)[1..] == a[1..] + b;
      NonEmptyAppend(a[1..], b);
    }
  }

  /** `.slice(0, 2)`. */
  function TakeTwo(ps: seq<string>): (r: seq<string>)
    ensures |r| <= 2 && |r| <= |ps| && r == ps[..|r|]
    ensures |r| == 2 || r == ps
  {
    if |ps| <= 2 then ps else ps[..2]
  }

  /**
   * A case field split into at most two bullet points:
   * `text.split(/[,\n]/).map(p => p.trim()).filter(p => p).slice(0, 2)`.
   */
  function Points(text: string): (r: seq<string>)
    ensures |r| <= 2
    ensures var kept := NonEmpty(TrimEach(SplitPoints(text)));
      |r| == (if |kept| < 2 then |kept| else 2) && r == kept[..|r|]
    ensures forall k :: 0 <= k < |r| ==> r[k] != "" && r[k] in TrimEach(SplitPoints(text))
    ensures |r| < 2 ==> forall k :: 0 <= k < |SplitPoints(text)| && Trim(SplitPoints(text)[k]) != "" ==>
                          Trim(SplitPoints(text)[k]) in r
  {
    var trimmed := TrimEach(SplitPoints(text));
    var kept := NonEmpty(trimmed);
    NonEmptyMembers(trimmed);
    var r := TakeTwo(kept);
    assert forall k :: 0 <= k < |r| ==> r[k] == kept[k];
    assert |r| < 2 ==> r == kept;
    r
  }
}
