/**
 * The reply framer of the backend (backend/app/stream_generator.py): the
 * assistant's event stream becomes the items the page receives. Only
 * message deltas produce items, one per content part; each part loses its
 * citation markers and asterisks; the stream ends with the end marker,
 * with a 504 when the model times out, or with any other exception
 * propagated as raised.
 */
module StreamFramer {
  import opened Wrappers
  import opened Protocol

  /* ---------- The citation pattern 【\d+:\d+†source】 ---------- */

  const OpenMark := '\U{3010}'
  /** What follows the second number: "†source】". */
  const MarkerTail := "\U{2020}source\U{3011}"

  predicate IsDigit(c: char) {
    '0' <= c <= '9'
  }

  predicate AllDigits(s: string) {
    forall i :: 0 <= i < |s| ==> IsDigit(s[i])
  }

  /** A citation marker with the given numbers. */
  function Marker(a: string, b: string): string {
    [OpenMark] + a + [':'] + b + MarkerTail
  }

  /** The text is one citation marker: both numbers are non-empty runs of digits. */
  ghost predicate IsMarker(t: string) {
    exists a: string, b: string {:trigger Marker(a, b)} ::
      a != [] && b != [] && AllDigits(a) && AllDigits(b) && t == Marker(a, b)
  }

  /** The length of the longest run of digits that starts `s` (what a greedy \d+ consumes). */
  function DigitRun(s: string): (n: nat)
    ensures n <= |s|
    ensures forall i :: 0 <= i < n ==> IsDigit(s[i])
    ensures n < |s| ==> !IsDigit(s[n])
  {
    if s == [] || !IsDigit(s[0]) then 0
    else
      var k := DigitRun(s[1..]);
      assert forall i :: 1 <= i < 1 + k ==> s[i] == s[1..][i - 1];
      1 + k
  }

  /** A run of digits followed by a non-digit is consumed whole. */
  lemma {:induction false} DigitRunOf(a: string, rest: string)
    requires AllDigits(a)
    requires rest == [] || !IsDigit(rest[0])
    ensures DigitRun(a + rest) == |a|
  {
    if a == [] {
      assert a + rest == rest;
    } else {
      assert (a + rest)[1..] == a[1..] + rest;
      DigitRunOf(a[1..], rest);
    }
  }

  /*
   * The matcher at a position, one piece of the pattern per function: the
   * bracket, the first number, the colon, the second number and the tail.
   * \d+ cannot give back a digit to let ':' or '†' match, so each greedy
   * run of digits decides the match. Each function gives the length it
   * consumes, if it matches.
   */

  /** After the colon: a run of digits and "†source】". */
  function AfterColon(v: string): (r: Option<nat>)
    ensures r.Some? ==> 0 < r.value <= |v|
  {
    var k2 := DigitRun(v);
    if k2 == 0 || !(MarkerTail <= v[k2..]) then None else Some(k2 + |MarkerTail|)
  }

  /** After the first number: ":" and what follows it. */
  function AfterFirst(u: string): (r: Option<nat>)
    ensures r.Some? ==> 0 < r.value <= |u|
  {
    if u == [] || u[0] != ':' then None
    else match AfterColon(u[1..])
      case None => None
      case Some(n) => Some(1 + n)
  }

  /** After the bracket: a run of digits and what follows it. */
  function AfterOpen(t: string): (r: Option<nat>)
    ensures r.Some? ==> 0 < r.value <= |t|
  {
    var k1 := DigitRun(t);
    if k1 == 0 then None
    else match AfterFirst(t[k1..])
      case None => None
      case Some(n) => Some(k1 + n)
  }

  /** The length of the citation marker `s` starts with, if it starts with one. */
  function MarkerAt(s: string): (r: Option<nat>)
    ensures r.Some? ==> 0 < r.value <= |s|
  {
    if s == [] || s[0] != OpenMark then None
    else match AfterOpen(s[1..])
      case None => None
      case Some(n) => Some(1 + n)
  }

  /** A prefix cut in two. */
  lemma SliceJoin(s: string, i: nat, j: nat)
    requires i <= j <= |s|
    ensures s[..j] == s[..i] + s[i..][..j - i]
  {
  }

  lemma AfterColonSound(v: string) returns (b: string)
    requires AfterColon(v).Some?
    ensures b != [] && AllDigits(b) && v[..AfterColon(v).value] == b + MarkerTail
  {
    var k2 := DigitRun(v);
    b := v[..k2];
    SliceJoin(v, k2, AfterColon(v).value);
  }

  lemma AfterFirstSound(u: string) returns (b: string)
    requires AfterFirst(u).Some?
    ensures b != [] && AllDigits(b) && u[..AfterFirst(u).value] == [':'] + b + MarkerTail
  {
    b := AfterColonSound(u[1..]);
    SliceJoin(u, 1, AfterFirst(u).value);
  }

  lemma AfterOpenSound(t: string) returns (a: string, b: string)
    requires AfterOpen(t).Some?
    ensures a != [] && AllDigits(a) && b != [] && AllDigits(b)
    ensures t[..AfterOpen(t).value] == a + [':'] + b + MarkerTail
  {
    var k1 := DigitRun(t);
    a := t[..k1];
    b := AfterFirstSound(t[k1..]);
    SliceJoin(t, k1, AfterOpen(t).value);
  }

  /** What MarkerAt finds is a marker. */
  lemma MarkerAtSound(s: string)
    requires MarkerAt(s).Some?
    ensures IsMarker(s[..MarkerAt(s).value])
  {
    MarkerAtOfOpen(s);
    var n := MarkerAt(s).value;
    var a, b := AfterOpenSound(s[1..]);
    SliceJoin(s, 1, n);
    assert s[..1] == [OpenMark];
    assert s[..n] == Marker(a, b);
  }

  /** A run of digits, then text opening with "†": matched exactly when that text begins with "†source】". */
  lemma AfterColonOf(b: string, tail: string)
    requires b != [] && AllDigits(b)
    requires tail != [] && tail[0] == MarkerTail[0]
    ensures AfterColon(b + tail).Some? <==> MarkerTail <= tail
    ensures AfterColon(b + tail).Some? ==> AfterColon(b + tail).value == |b| + |MarkerTail|
  {
    DigitRunOf(b, tail);
    assert (b + tail)[|b|..] == tail;
  }

  /** A run of digits followed by ":": the match is decided after the colon. */
  lemma AfterOpenOf(a: string, u: string)
    requires a != [] && AllDigits(a) && u != [] && u[0] == ':'
    ensures AfterOpen(a + u).Some? <==> AfterColon(u[1..]).Some?
    ensures AfterOpen(a + u).Some? ==> AfterOpen(a + u).value == |a| + 1 + AfterColon(u[1..]).value
  {
    DigitRunOf(a, u);
    assert (a + u)[|a|..] == u;
  }

  /** The bracket, then whatever AfterOpen finds. */
  lemma MarkerAtOfOpen(s: string)
    requires s != [] && s[0] == OpenMark
    ensures MarkerAt(s).Some? <==> AfterOpen(s[1..]).Some?
    ensures MarkerAt(s).Some? ==> MarkerAt(s).value == 1 + AfterOpen(s[1..]).value
  {
  }

  /** Bracket, digits, ":", digits, then a tail opening with "†": a match exactly when the tail begins with "†source】". */
  lemma MarkerAtOfShape(s: string, a: string, b: string, tail: string)
    requires a != [] && b != [] && AllDigits(a) && AllDigits(b)
    requires tail != [] && tail[0] == MarkerTail[0]
    requires s == [OpenMark] + (a + ([':'] + (b + tail)))
    ensures MarkerAt(s).Some? <==> MarkerTail <= tail
    ensures MarkerAt(s).Some? ==> MarkerAt(s).value == 2 + |a| + |b| + |MarkerTail|
  {
    var u := [':'] + (b + tail);
    assert s[1..] == a + u;
    MarkerAtOfOpen(s);
    AfterOpenOf(a, u);
    assert u[1..] == b + tail;
    AfterColonOf(b, tail);
  }

  /** Every marker at the start of a text is found, with its full length. */
  lemma MarkerAtComplete(a: string, b: string, rest: string)
    requires a != [] && b != [] && AllDigits(a) && AllDigits(b)
    ensures MarkerAt(Marker(a, b) + rest).Some?
    ensures MarkerAt(Marker(a, b) + rest).value == |Marker(a, b)|
  {
    var tail := MarkerTail + rest;
    var s := Marker(a, b) + rest;
    assert s == [OpenMark] + (a + ([':'] + (b + tail)));
    assert MarkerTail <= tail;
    MarkerAtOfShape(s, a, b, tail);
    assert |Marker(a, b)| == 2 + |a| + |b| + |MarkerTail|;
  }

  /**
   * re.sub of the pattern with "": scanning left to right, a marker found
   * at the current place is dropped and scanning resumes after it;
   * otherwise the character is kept.
   */
  function StripCitations(s: string): (r: string)
    ensures |r| <= |s|
    decreases |s|
  {
    if s == [] then []
    else match MarkerAt(s)
      case Some(n) => StripCitations(s[n..])
      case None => [s[0]] + StripCitations(s[1..])
  }

  /** A marker at the current place is removed whole. */
  lemma StripRemovesMarker(a: string, b: string, rest: string)
    requires a != [] && b != [] && AllDigits(a) && AllDigits(b)
    ensures StripCitations(Marker(a, b) + rest) == StripCitations(rest)
  {
    MarkerAtComplete(a, b, rest);
    assert (Marker(a, b) + rest)[|Marker(a, b)|..] == rest;
  }

  /** A character that does not begin a marker is kept. */
  lemma StripKeepsOther(c: char, rest: string)
    requires MarkerAt([c] + rest).None?
    ensures StripCitations([c] + rest) == [c] + StripCitations(rest)
  {
    assert ([c] + rest)[1..] == rest;
  }

  /** Text without an opening bracket has nothing to strip. */
  lemma {:induction false} StripWithoutOpenMark(s: string)
    requires OpenMark !in s
    ensures StripCitations(s) == s
    decreases |s|
  {
    if s != [] {
      StripWithoutOpenMark(s[1..]);
    }
  }

  /** "*" removed everywhere (str.replace with an empty replacement). */
  function StripAsterisks(s: string): (r: string)
    ensures |r| <= |s|
    ensures '*' !in r
    ensures forall c :: c != '*' ==> (c in r <==> c in s)
  {
    if s == [] then []
    else if s[0] == '*' then StripAsterisks(s[1..])
    else [s[0]] + StripAsterisks(s[1..])
  }

  /** Text without asterisks is left alone. */
  lemma {:induction false} StripAsterisksNone(s: string)
    requires '*' !in s
    ensures StripAsterisks(s) == s
  {
    if s != [] {
      StripAsterisksNone(s[1..]);
    }
  }

  /** Asterisk removal works piece by piece. */
  lemma {:induction false} StripAsterisksAppend(s: string, t: string)
    ensures StripAsterisks(s + t) == StripAsterisks(s) + StripAsterisks(t)
  {
    if s == [] {
      assert s + t == t;
    } else {
      assert (s + t)[0] == s[0] && (s + t)[1..] == s[1..] + t;
      StripAsterisksAppend(s[1..], t);
    }
  }

  /* ---------- Subsequences ---------- */

  /** `a` is `b` with some characters left out, the rest in their order. */
  predicate IsSubsequence(a: string, b: string)
    decreases |b|
  {
    a == [] || (b != [] && ((a[0] == b[0] && IsSubsequence(a[1..], b[1..])) || IsSubsequence(a, b[1..])))
  }

  lemma {:induction false} SubsequenceOfSkipped(a: string, p: string, b: string)
    requires IsSubsequence(a, b)
    ensures IsSubsequence(a, p + b)
    decreases |p|
  {
    if p == [] {
      assert p + b == b;
    } else {
      SubsequenceOfSkipped(a, p[1..], b);
      assert (p + b)[1..] == p[1..] + b;
    }
  }

  lemma {:induction false} SubsequenceTrans(a: string, b: string, c: string)
    requires IsSubsequence(a, b) && IsSubsequence(b, c)
    ensures IsSubsequence(a, c)
    decreases |c|
  {
    if a != [] {
      if IsSubsequence(b, c[1..]) {
        SubsequenceTrans(a, b, c[1..]);
      } else if a[0] == b[0] && IsSubsequence(a[1..], b[1..]) {
        SubsequenceTrans(a[1..], b[1..], c[1..]);
      } else {
        SubsequenceTrans(a, b[1..], c[1..]);
      }
    }
  }

  lemma {:induction false} StripCitationsSubsequence(s: string)
    ensures IsSubsequence(StripCitations(s), s)
    decreases |s|
  {
    if s != [] {
      match MarkerAt(s)
      case Some(n) =>
        StripCitationsSubsequence(s[n..]);
        SubsequenceOfSkipped(StripCitations(s[n..]), s[..n], s[n..]);
        assert s[..n] + s[n..] == s;
      case None =>
        StripCitationsSubsequence(s[1..]);
    }
  }

  lemma {:induction false} StripAsterisksSubsequence(s: string)
    ensures IsSubsequence(StripAsterisks(s), s)
  {
    if s != [] {
      StripAsterisksSubsequence(s[1..]);
    }
  }

  /** One content part as it is yielded: citations stripped, then every asterisk. */
  function Sanitise(part: string): (r: string)
    ensures '*' !in r
    ensures |r| <= |part|
  {
    StripAsterisks(StripCitations(part))
  }

  /** What is yielded is the part with characters left out, never reordered or added. */
  lemma SanitiseSubsequence(part: string)
    ensures IsSubsequence(Sanitise(part), part)
  {
    StripAsterisksSubsequence(StripCitations(part));
    StripCitationsSubsequence(part);
    SubsequenceTrans(Sanitise(part), StripCitations(part), part);
  }

  /** A character that is neither a digit nor ":" occurs in the numbers part of a marker only through its tail. */
  lemma AbsentFromNumbers(c: char, a: string, b: string, tail: string)
    requires !IsDigit(c) && c != ':' && c !in tail
    requires AllDigits(a) && AllDigits(b)
    ensures c !in a + [':'] + b + tail
  {
  }

  /** Neither bracket-free tail holds an opening bracket, and "†source" holds no asterisk. */
  lemma TailsArePlain()
    ensures OpenMark !in MarkerTail && OpenMark !in StarredTail && '*' !in MarkerTail[..7]
  {
    assert MarkerTail == ['\U{2020}', 's', 'o', 'u', 'r', 'c', 'e', '\U{3011}'];
    assert StarredTail == ['\U{2020}', 's', 'o', 'u', 'r', 'c', 'e', '*', '\U{3011}'];
  }

  /** A bracket directly after a bracket: the first one cannot open a marker. */
  lemma NoMarkerBeforeBracket(s: string)
    requires |s| >= 2 && s[1] == OpenMark
    ensures MarkerAt(s).None?
  {
    assert s[1..][0] == OpenMark;
  }

  /** Dropping a marker can bring a new one together: "【" + marker + rest of a marker. */
  lemma RemovalCanFormMarker(a: string, b: string)
    requires a != [] && b != [] && AllDigits(a) && AllDigits(b)
    ensures IsMarker(StripCitations([OpenMark] + Marker(a, b) + Marker(a, b)[1..]))
  {
    var m := Marker(a, b);
    var r := a + [':'] + b + MarkerTail;
    assert m == [OpenMark] + r;
    assert m[1..] == r;
    var s := [OpenMark] + (m + r);
    assert s == [OpenMark] + m + m[1..];
    NoMarkerBeforeBracket(s);
    StripKeepsOther(OpenMark, m + r);
    StripRemovesMarker(a, b, r);
    TailsArePlain();
    AbsentFromNumbers(OpenMark, a, b, MarkerTail);
    StripWithoutOpenMark(r);
    assert StripCitations(s) == m;
  }

  /** "†source*】": the tail of a marker with an asterisk before the bracket. */
  const StarredTail := "\U{2020}source*\U{3011}"

  /** The pattern does not match at the bracket of a marker with an asterisk before its closing bracket. */
  lemma HiddenMarkerNoMatch(a: string, b: string)
    requires a != [] && b != [] && AllDigits(a) && AllDigits(b)
    ensures MarkerAt([OpenMark] + a + [':'] + b + StarredTail).None?
  {
    var s := [OpenMark] + a + [':'] + b + StarredTail;
    assert s == [OpenMark] + (a + ([':'] + (b + StarredTail)));
    MarkerAtOfShape(s, a, b, StarredTail);
    assert StarredTail[7] != MarkerTail[7];
  }

  /** Nor anywhere after it: that text passes the citation filter unchanged. */
  lemma HiddenMarkerUntouched(a: string, b: string)
    requires a != [] && b != [] && AllDigits(a) && AllDigits(b)
    ensures StripCitations([OpenMark] + a + [':'] + b + StarredTail) == [OpenMark] + a + [':'] + b + StarredTail
  {
    var inner := a + [':'] + b + StarredTail;
    assert [OpenMark] + inner == [OpenMark] + a + [':'] + b + StarredTail;
    HiddenMarkerNoMatch(a, b);
    StripKeepsOther(OpenMark, inner);
    TailsArePlain();
    AbsentFromNumbers(OpenMark, a, b, StarredTail);
    StripWithoutOpenMark(inner);
  }

  /** The starred text is the marker with "*" put before its closing bracket. */
  lemma StarredSplit(a: string, b: string)
    ensures var pre := [OpenMark] + (a + [':'] + b + MarkerTail[..7]);
      && [OpenMark] + a + [':'] + b + StarredTail == pre + ("*" + [MarkerTail[7]])
      && pre + [MarkerTail[7]] == Marker(a, b)
  {
    assert StarredTail == MarkerTail[..7] + "*" + [MarkerTail[7]];
    assert MarkerTail == MarkerTail[..7] + [MarkerTail[7]];
  }

  /** Removing its asterisk turns that text into the marker. */
  lemma HiddenMarkerRevealed(a: string, b: string)
    requires AllDigits(a) && AllDigits(b)
    ensures StripAsterisks([OpenMark] + a + [':'] + b + StarredTail) == Marker(a, b)
  {
    var pre := [OpenMark] + (a + [':'] + b + MarkerTail[..7]);
    var close := [MarkerTail[7]];
    StarredSplit(a, b);
    StripAsterisksAppend(pre, "*" + close);
    TailsArePlain();
    AbsentFromNumbers('*', a, b, MarkerTail[..7]);
    StripAsterisksNone(pre);
    assert ("*" + close)[1..] == close;
    StripAsterisksNone(close);
  }

  /** An asterisk inside a marker hides it from the pattern; its removal afterwards lets the marker through. */
  lemma AsteriskHidesMarker(a: string, b: string)
    requires a != [] && b != [] && AllDigits(a) && AllDigits(b)
    ensures Sanitise([OpenMark] + a + [':'] + b + StarredTail) == Marker(a, b)
  {
    HiddenMarkerUntouched(a, b);
    HiddenMarkerRevealed(a, b);
  }

  /* ---------- The generator ---------- */

  const DeltaEvent := "thread.message.delta"

  /** An assistant stream event: its type and, for a delta, the text of each content part. */
  datatype StreamEvent = StreamEvent(kind: string, parts: seq<string>)

  /**
   * How the assistant's stream ended after the delivered events: it
   * finished, the wait for the next event hit asyncio.TimeoutError, or some
   * other exception was raised (a failed client call, say).
   */
  datatype Ending = Finished | WaitTimedOut | OtherError(reason: string)

  /** The events the assistant delivered, and how the stream ended after them. */
  datatype Source = Source(events: seq<StreamEvent>, ending: Ending)

  /**
   * What the generator raises: the 504 it turns a timeout into, or any other
   * exception passed on as it is.
   */
  datatype Raised = Http(e: HttpError) | Propagated(reason: string)

  /** The items yielded, and what was raised after them, if anything. */
  datatype Outcome = Outcome(items: seq<string>, error: Option<Raised>)

  const TimedOut := HttpError(504, "Stream timed out")

  /** The inner loop: each part of one delta, sanitised, in order. */
  function SanitiseAll(parts: seq<string>): (r: seq<string>)
    ensures |r| == |parts|
    ensures forall i :: 0 <= i < |parts| ==> r[i] == Sanitise(parts[i])
  {
    if parts == [] then [] else [Sanitise(parts[0])] + SanitiseAll(parts[1..])
  }

  /** What one event yields: its sanitised parts if it is a message delta, nothing otherwise. */
  function Yield(e: StreamEvent): (r: seq<string>)
    ensures |r| == if e.kind == DeltaEvent then |e.parts| else 0
  {
    if e.kind == DeltaEvent then SanitiseAll(e.parts) else []
  }

  /** The outer loop: what the delta events among `events` yield, one item per delta part. */
  function Frame(events: seq<StreamEvent>): (r: seq<string>)
    ensures |r| == |DeltaParts(events)|
  {
    if events == [] then []
    else Yield(events[0]) + Frame(events[1..])
  }

  /** The content parts of the delta events, in order; every other event carries none. */
  function DeltaParts(events: seq<StreamEvent>): seq<string> {
    if events == [] then []
    else (if events[0].kind == DeltaEvent then events[0].parts else []) + DeltaParts(events[1..])
  }

  /**
   * stream_generator: the frame, then the end marker; on a timeout the
   * frame so far and a 504; on any other exception the frame so far and
   * that exception, which the handler does not catch.
   */
  function StreamGenerator(src: Source): (o: Outcome)
    ensures o.error.None? <==> src.ending == Finished
    ensures o.error == Some(Http(TimedOut)) <==> src.ending == WaitTimedOut
    ensures src.ending.OtherError? ==> o.error == Some(Propagated(src.ending.reason))
    ensures |o.items| == |DeltaParts(src.events)| + (if src.ending == Finished then 1 else 0)
    ensures src.ending == Finished ==> o.items[|o.items| - 1] == EndOfStream
  {
    match src.ending
    case Finished => Outcome(Frame(src.events) + [EndOfStream], None)
    case WaitTimedOut => Outcome(Frame(src.events), Some(Http(TimedOut)))
    case OtherError(reason) => Outcome(Frame(src.events), Some(Propagated(reason)))
  }

  /** One item per delta part, in order, each the sanitised part. */
  lemma {:induction false} FrameIsSanitisedParts(events: seq<StreamEvent>)
    ensures |Frame(events)| == |DeltaParts(events)|
    ensures forall i :: 0 <= i < |Frame(events)| ==> Frame(events)[i] == Sanitise(DeltaParts(events)[i])
  {
    if events != [] {
      FrameIsSanitisedParts(events[1..]);
    }
  }

  /** Events are framed one at a time. */
  lemma {:induction false} FrameAppend(e1: seq<StreamEvent>, e2: seq<StreamEvent>)
    ensures Frame(e1 + e2) == Frame(e1) + Frame(e2)
    decreases |e1|
  {
    if e1 == [] {
      assert e1 + e2 == e2;
    } else {
      assert (e1 + e2)[0] == e1[0] && (e1 + e2)[1..] == e1[1..] + e2;
      FrameAppend(e1[1..], e2);
    }
  }

  /** Events other than deltas produce nothing. */
  lemma OnlyDeltasYield(events: seq<StreamEvent>, e: StreamEvent)
    requires e.kind != DeltaEvent
    ensures Frame([e] + events) == Frame(events)
  {
    assert ([e] + events)[1..] == events;
  }

  /** Every item of a finished stream before the marker is free of asterisks and drawn from its part. */
  lemma ItemsAreCleanedParts(src: Source)
    ensures var o := StreamGenerator(src);
      forall i :: 0 <= i < |Frame(src.events)| ==>
        && '*' !in o.items[i]
        && IsSubsequence(o.items[i], DeltaParts(src.events)[i])
  {
    FrameIsSanitisedParts(src.events);
    forall i | 0 <= i < |Frame(src.events)|
      ensures IsSubsequence(Frame(src.events)[i], DeltaParts(src.events)[i])
    {
      SanitiseSubsequence(DeltaParts(src.events)[i]);
    }
  }

  function Count(items: seq<string>, x: string): nat {
    if items == [] then 0 else (if items[0] == x then 1 else 0) + Count(items[1..], x)
  }

  lemma {:induction false} CountAppend(a: seq<string>, b: seq<string>, x: string)
    ensures Count(a + b, x) == Count(a, x) + Count(b, x)
  {
    if a == [] {
      assert a + b == b;
    } else {
      assert (a + b)[0] == a[0] && (a + b)[1..] == a[1..] + b;
      CountAppend(a[1..], b, x);
    }
  }

  lemma {:induction false} CountAbsent(items: seq<string>, x: string)
    requires x !in items
    ensures Count(items, x) == 0
  {
    if items != [] {
      CountAbsent(items[1..], x);
    }
  }

  /**
   * A finished stream ends with the end marker, and it is the only one
   * unless some part sanitises to the marker text itself; a stream that
   * fails carries none beyond such parts and ends with what was raised:
   * 504 on a timeout, the exception itself otherwise.
   */
  lemma EndMarkerOnce(src: Source)
    requires EndOfStream !in Frame(src.events)
    ensures var o := StreamGenerator(src);
      && (src.ending == Finished ==>
            o.error.None? && o.items[|o.items| - 1] == EndOfStream && Count(o.items, EndOfStream) == 1)
      && (src.ending != Finished ==> o.error.Some? && Count(o.items, EndOfStream) == 0)
      && (src.ending == WaitTimedOut ==> o.error == Some(Http(TimedOut)))
      && (src.ending.OtherError? ==> o.error == Some(Propagated(src.ending.reason)))
  {
    CountAbsent(Frame(src.events), EndOfStream);
    CountAppend(Frame(src.events), [EndOfStream], EndOfStream);
  }

  /** Text without brackets and asterisks, followed by one asterisk, sanitises to itself. */
  lemma SanitiseDropsTrailingStar(x: string)
    requires OpenMark !in x && '*' !in x
    ensures Sanitise(x + "*") == x
  {
    assert OpenMark !in x + "*";
    StripWithoutOpenMark(x + "*");
    StripAsterisksAppend(x, "*");
    StripAsterisksNone(x);
    assert StripAsterisks("*") == [];
  }

  /** A part that sanitises to the marker text is yielded as a second end marker, ahead of the real one. */
  lemma ForgedEndMarker(part: string)
    requires Sanitise(part) == EndOfStream
    ensures var o := StreamGenerator(Source([StreamEvent(DeltaEvent, [part])], Finished));
      o.items == [EndOfStream, EndOfStream] && Count(o.items, EndOfStream) == 2
  {
    var evs := [StreamEvent(DeltaEvent, [part])];
    assert evs[1..] == [];
    assert Frame(evs) == [EndOfStream];
    var items := [EndOfStream, EndOfStream];
    assert items[1..] == [EndOfStream] && items[1..][1..] == [];
    assert Count(items[1..][1..], EndOfStream) == 0;
    assert Count(items[1..], EndOfStream) == 1;
  }

  /** "__END_OF_STREAM__*" is such a part. */
  lemma StarredEndMarker()
    ensures Sanitise(EndOfStream + "*") == EndOfStream
  {
    SanitiseDropsTrailingStar(EndOfStream);
  }
}
