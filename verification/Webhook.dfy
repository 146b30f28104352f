/** The pure parts of webhook acceptance: the idempotency pre-image and path containment. */
module IdempotencyKey {
  import opened Common

  /** The fields of a webhook payload that the handler reads. */
  datatype Payload = Payload(
    action: string, status: Option<int>, path: string,
    username: string, virtualPath: string, fileSize: nat, timestamp: Option<int>, sessionId: Option<string>)

  // ---------------------------------------------------------------- decimal numbers

  const DIGITS: string := "0123456789"

  function Digits(n: nat): string
  {
    if n < 10 then [DIGITS[n]] else Digits(n / 10) + [DIGITS[n % 10]]
  }

  function Show(n: int): string
  {
    if n < 0 then "-" + Digits(-n) else Digits(n)
  }

  function DigitValue(c: char): nat
  {
    if '0' <= c <= '9' then (c as int) - ('0' as int) else 0
  }

  function Value(s: string): nat
  {
    if s == "" then 0 else 10 * Value(s[..|s| - 1]) + DigitValue(s[|s| - 1])
  }

  lemma {:induction false} DigitsRoundTrip(n: nat)
    ensures Digits(n) != "" && Value(Digits(n)) == n
    ensures forall i :: 0 <= i < |Digits(n)| ==> '0' <= Digits(n)[i] <= '9'
  {
    if n >= 10 {
      DigitsRoundTrip(n / 10);
      assert Digits(n)[..|Digits(n)| - 1] == Digits(n / 10);
    } else {
      assert Digits(n)[..0] == "";
    }
  }

  lemma ShowHasNoPipe(n: int)
    ensures Show(n) != "" && '|' !in Show(n)
    ensures Show(n)[0] == '-' <==> n < 0
  {
    DigitsRoundTrip(if n < 0 then -n else n);
  }

  lemma ShowIsInjective(m: int, n: int)
    requires Show(m) == Show(n)
    ensures m == n
  {
    ShowHasNoPipe(m);
    ShowHasNoPipe(n);
    DigitsRoundTrip(if m < 0 then -m else m);
    DigitsRoundTrip(if n < 0 then -n else n);
    if m < 0 { assert Digits(-m) == Show(m)[1..] && Digits(-n) == Show(n)[1..]; }
  }

  // ---------------------------------------------------------------- the joined string

  function Text(n: Option<int>): string
  {
    if n == None then "" else Show(n.value)
  }

  function Session(p: Payload): string
  {
    if p.sessionId == None then "" else p.sessionId.value
  }

  /** The five fields of the event. */
  function Fields(p: Payload): seq<string>
  {
    [p.username, p.virtualPath, Show(p.fileSize), Text(p.timestamp), Session(p)]
  }

  /** The string that is hashed. */
  function PreImage(p: Payload): string
  {
    JoinWith(Fields(p), '|')
  }

  /** Spelled out. */
  lemma JoinedFields(p: Payload)
    ensures PreImage(p)
            == p.username + "|" + p.virtualPath + "|" + Show(p.fileSize) + "|"
               + (if p.timestamp == None then "" else Show(p.timestamp.value)) + "|"
               + (if p.sessionId == None then "" else p.sessionId.value)
  {
    FiveInARow(p.username, p.virtualPath, Show(p.fileSize), Text(p.timestamp), Session(p));
    JoinFive(p.username, p.virtualPath, Show(p.fileSize), Text(p.timestamp), Session(p));
  }

  lemma JoinFive(a: string, b: string, c: string, d: string, e: string)
    ensures JoinWith([a] + [b] + [c] + [d] + [e], '|') == a + "|" + b + "|" + c + "|" + d + "|" + e
  {
    JoinSnoc([a], b, '|');
    JoinSnoc([a] + [b], c, '|');
    JoinSnoc([a] + [b] + [c], d, '|');
    JoinSnoc([a] + [b] + [c] + [d], e, '|');
  }

  /** The same event; an absent and an empty session are the same. */
  predicate SameEvent(p: Payload, q: Payload)
  {
    && p.username == q.username && p.virtualPath == q.virtualPath && p.fileSize == q.fileSize
    && p.timestamp == q.timestamp && Session(p) == Session(q)
  }

  /** What validation demands of the strings that are always present. */
  predicate Receivable(p: Payload)
  {
    p.action != "" && p.path != "" && p.username != "" && p.virtualPath != ""
  }

  // ---------------------------------------------------------------- numbers read back

  /** A string that prints a size. */
  predicate ReadsAsSize(s: string)
  {
    s != "" && (forall i :: 0 <= i < |s| ==> '0' <= s[i] <= '9') && (s[0] == '0' ==> |s| == 1)
  }

  /** A string that prints a time stamp, or an absent one. */
  predicate ReadsAsTime(s: string)
  {
    s == "" || ReadsAsSize(s) || (s[0] == '-' && ReadsAsSize(s[1..]) && s[1] != '0')
  }

  lemma {:induction false} DigitsReadAsSize(n: nat)
    ensures ReadsAsSize(Digits(n)) && (Digits(n)[0] == '0' <==> n == 0)
  {
    if n >= 10 { DigitsReadAsSize(n / 10); }
  }

  lemma {:induction false} SizeReadsBack(s: string)
    requires ReadsAsSize(s)
    ensures Digits(Value(s)) == s && (s[0] != '0' ==> Value(s) > 0)
  {
    var init, c := s[..|s| - 1], s[|s| - 1];
    assert s == init + [c];
    if init == "" {
      OneDigit(c);
    } else {
      assert init[0] == s[0] && ReadsAsSize(init);
      SizeReadsBack(init);
      MoreDigits(init, c);
    }
  }

  lemma OneDigit(c: char)
    requires '0' <= c <= '9'
    ensures Digits(Value("" + [c])) == "" + [c] && (c != '0' ==> Value("" + [c]) > 0)
  {
    ValueSnoc("", c);
    DigitPrints(c);
  }

  lemma MoreDigits(init: string, c: char)
    requires '0' <= c <= '9' && Value(init) > 0 && Digits(Value(init)) == init
    ensures Digits(Value(init + [c])) == init + [c] && Value(init + [c]) > 0
  {
    ValueSnoc(init, c);
    DigitPrints(c);
    DigitsStep(Value(init), DigitValue(c));
  }

  lemma ValueSnoc(init: string, c: char)
    ensures Value(init + [c]) == 10 * Value(init) + DigitValue(c)
  {
    assert (init + [c])[..|init|] == init;
  }

  lemma DigitPrints(c: char)
    requires '0' <= c <= '9'
    ensures DigitValue(c) < 10 && DIGITS[DigitValue(c)] == c
  {
  }

  lemma DigitsStep(v: nat, d: nat)
    requires v > 0 && d < 10
    ensures Digits(10 * v + d) == Digits(v) + [DIGITS[d]]
  {
  }

  lemma TimeReads(t: Option<int>)
    ensures ReadsAsTime(Text(t))
  {
    if t.Some? {
      var n := if t.value < 0 then -t.value else t.value;
      DigitsReadAsSize(n);
      if t.value < 0 { assert Show(t.value)[1..] == Digits(n); }
    }
  }

  lemma TimeReadsBack(s: string) returns (t: Option<int>)
    requires ReadsAsTime(s)
    ensures Text(t) == s
  {
    if s == "" {
      t := None;
    } else if ReadsAsSize(s) {
      SizeReadsBack(s);
      t := Some(Value(s));
    } else {
      var v: int := Value(s[1..]);
      NegativeReadsBack(s[1..]);
      assert s == "-" + s[1..];
      t := Some(-v);
    }
  }

  lemma NegativeReadsBack(s: string)
    requires ReadsAsSize(s) && s[0] != '0'
    ensures Show(-(Value(s) as int)) == "-" + s
  {
    SizeReadsBack(s);
  }

  // ---------------------------------------------------------------- readings of the joined string

  /** The joined string, cut at every separator. */
  function Parts(p: Payload): seq<string>
  {
    SplitOn(p.username, '|') + SplitOn(p.virtualPath, '|') + [Show(p.fileSize), Text(p.timestamp)]
      + SplitOn(Session(p), '|')
  }

  lemma PreImageSplits(p: Payload)
    ensures SplitOn(PreImage(p), '|') == Parts(p)
  {
    ShowHasNoPipe(p.fileSize);
    if p.timestamp.Some? { ShowHasNoPipe(p.timestamp.value); }
    SplitFive(p.username, p.virtualPath, Show(p.fileSize), Text(p.timestamp), Session(p));
  }

  lemma SplitFive(a: string, b: string, c: string, d: string, e: string)
    requires '|' !in c && '|' !in d
    ensures SplitOn(JoinWith([a, b, c, d, e], '|'), '|') == SplitOn(a, '|') + SplitOn(b, '|') + [c, d] + SplitOn(e, '|')
  {
    FiveInARow(a, b, c, d, e);
    SplitJoinSnoc([a], b, '|');
    SplitJoinSnoc([a] + [b], c, '|');
    SplitJoinSnoc([a] + [b] + [c], d, '|');
    SplitJoinSnoc([a] + [b] + [c] + [d], e, '|');
    SplitWhole(c, '|');
    SplitWhole(d, '|');
    TwoInARow(SplitOn(a, '|') + SplitOn(b, '|'), c, d);
  }

  lemma SamePreImage(p: Payload, q: Payload)
    ensures PreImage(p) == PreImage(q) <==> Parts(p) == Parts(q)
  {
    PreImageSplits(p);
    PreImageSplits(q);
    JoinSplit(PreImage(p), '|');
    JoinSplit(PreImage(q), '|');
  }

  /** Where the virtual path and the size begin in the list of parts. */
  datatype Reading = Reading(path: nat, size: nat)

  function ReadingOf(p: Payload): Reading
  {
    var path := |SplitOn(p.username, '|')|;
    Reading(path, path + |SplitOn(p.virtualPath, '|')|)
  }

  /** The parts can be read as the fields of a payload that validation lets through. */
  predicate IsReading(parts: seq<string>, r: Reading)
  {
    && 1 <= r.path < r.size && r.size + 2 < |parts|
    && JoinWith(parts[..r.path], '|') != "" && JoinWith(parts[r.path..r.size], '|') != ""
    && ReadsAsSize(parts[r.size]) && ReadsAsTime(parts[r.size + 1])
  }

  /** A payload is what its parts say under its own reading. */
  lemma ReadsAsItself(p: Payload)
    ensures var parts, r := Parts(p), ReadingOf(p);
            && 1 <= r.path < r.size && r.size + 2 < |parts|
            && JoinWith(parts[..r.path], '|') == p.username && JoinWith(parts[r.path..r.size], '|') == p.virtualPath
            && parts[r.size] == Show(p.fileSize) && parts[r.size + 1] == Text(p.timestamp)
            && JoinWith(parts[r.size + 2..], '|') == Session(p)
  {
    var parts, r := Parts(p), ReadingOf(p);
    JoinedApart(SplitOn(p.username, '|'), SplitOn(p.virtualPath, '|'), Show(p.fileSize), Text(p.timestamp),
                SplitOn(Session(p), '|'));
    JoinSplit(p.username, '|');
    JoinSplit(p.virtualPath, '|');
    JoinSplit(Session(p), '|');
  }

  lemma JoinedApart(a: seq<string>, b: seq<string>, c: string, d: string, e: seq<string>)
    requires a != [] && b != [] && e != []
    ensures var s := a + b + [c, d] + e;
            var i, j := |a|, |a| + |b|;
            && |s| == j + 2 + |e| && JoinWith(s[..i], '|') == JoinWith(a, '|')
               && JoinWith(s[i..j], '|') == JoinWith(b, '|')
            && s[j] == c && s[j + 1] == d && JoinWith(s[j + 2..], '|') == JoinWith(e, '|')
  {
    TakenApart(a, b, c, d, e);
  }

  lemma OwnReading(p: Payload)
    requires Receivable(p)
    ensures IsReading(Parts(p), ReadingOf(p))
  {
    ReadsAsItself(p);
    DigitsReadAsSize(p.fileSize);
    TimeReads(p.timestamp);
  }

  /** Parts and reading determine the event. */
  lemma SameReading(p: Payload, q: Payload)
    requires Parts(p) == Parts(q) && ReadingOf(p) == ReadingOf(q)
    ensures SameEvent(p, q)
  {
    ReadsAsItself(p);
    ReadsAsItself(q);
    ShowIsInjective(p.fileSize, q.fileSize);
    TextIsInjective(p.timestamp, q.timestamp);
  }

  lemma TextIsInjective(a: Option<int>, b: Option<int>)
    requires Text(a) == Text(b)
    ensures a == b
  {
    if a.Some? { ShowHasNoPipe(a.value); }
    if b.Some? { ShowHasNoPipe(b.value); }
    if a.Some? && b.Some? { ShowIsInjective(a.value, b.value); }
  }

  /** The payload with these fields, each given by its parts. */
  lemma PayloadFrom(p: Payload, user: seq<string>, path: seq<string>, size: string, time: string, session: seq<string>)
    returns (q: Payload)
    requires p.action != "" && p.path != "" && user != [] && path != [] && session != []
    requires Free(user) && Free(path) && Free(session) && ReadsAsSize(size) && ReadsAsTime(time)
    requires JoinWith(user, '|') != "" && JoinWith(path, '|') != ""
    ensures Receivable(q) && Parts(q) == user + path + [size, time] + session
    ensures ReadingOf(q) == Reading(|user|, |user| + |path|)
  {
    SplitJoin(user, '|');
    SplitJoin(path, '|');
    SplitJoin(session, '|');
    SizeReadsBack(size);
    var t := TimeReadsBack(time);
    q := p.(username := JoinWith(user, '|'), virtualPath := JoinWith(path, '|'), fileSize := Value(size),
            timestamp := t, sessionId := Some(JoinWith(session, '|')));
  }

  predicate Free(parts: seq<string>)
  {
    forall i :: 0 <= i < |parts| ==> '|' !in parts[i]
  }

  /** Every reading is that of a payload. */
  lemma PayloadOf(p: Payload, parts: seq<string>, r: Reading) returns (q: Payload)
    requires Receivable(p) && Free(parts) && IsReading(parts, r)
    ensures Receivable(q) && Parts(q) == parts && ReadingOf(q) == r
  {
    var user, path, session := parts[..r.path], parts[r.path..r.size], parts[r.size + 2..];
    Reassembled(parts, r.path, r.size);
    q := PayloadFrom(p, user, path, parts[r.size], parts[r.size + 1], session);
  }

  /** Exactly when a payload shares its pre-image with another event that the webhook can
      receive: when its parts have a second reading. */
  lemma CollidesExactlyWhen(p: Payload)
    requires Receivable(p)
    ensures (exists q :: Receivable(q) && PreImage(q) == PreImage(p) && !SameEvent(p, q)) <==>
            (exists r :: IsReading(SplitOn(PreImage(p), '|'), r) && r != ReadingOf(p))
  {
    PreImageSplits(p);
    if q :| Receivable(q) && PreImage(q) == PreImage(p) && !SameEvent(p, q) {
      SamePreImage(p, q);
      OwnReading(q);
      if ReadingOf(q) == ReadingOf(p) { SameReading(p, q); }
      assert IsReading(Parts(p), ReadingOf(q));
    }
    if r :| IsReading(Parts(p), r) && r != ReadingOf(p) {
      var q := PayloadOf(p, Parts(p), r);
      SamePreImage(p, q);
    }
  }

  /** The pre-image determines all five fields when user name and session id contain no
      '|', even if the virtual path does. */
  lemma PreImageIsInjective(p: Payload, q: Payload)
    requires PreImage(p) == PreImage(q)
    requires '|' !in p.username && '|' !in q.username && '|' !in Session(p) && '|' !in Session(q)
    ensures SameEvent(p, q)
  {
    SamePreImage(p, q);
    SameReading(p, q);
  }

  /** A '|' in the user name collides with another payload, and with one that the webhook can
      receive unless the '|' is the first character. */
  lemma PipeInUsernameCollides(p: Payload, i: nat)
    requires i < |p.username| && p.username[i] == '|'
    ensures var q := p.(username := p.username[..i], virtualPath := p.username[i + 1..] + ['|'] + p.virtualPath);
            && !SameEvent(p, q) && PreImage(q) == PreImage(p)
            && (i > 0 && Receivable(p) ==> Receivable(q))
  {
    var u := p.username;
    var q := p.(username := u[..i], virtualPath := u[i + 1..] + ['|'] + p.virtualPath);
    assert u == u[..i] + ['|'] + u[i + 1..];
    SplitAround(u[..i], u[i + 1..], '|');
    SplitAround(u[i + 1..], p.virtualPath, '|');
    Regrouped(SplitOn(u[..i], '|'), SplitOn(u[i + 1..], '|'), SplitOn(p.virtualPath, '|'));
    SamePreImage(p, q);
    assert |u[..i]| < |u|;
  }
}

module Paths {
  import opened Common

  /** `path.split('/')`. */
  function Split(s: string): seq<string>
  {
    SplitOn(s, '/')
  }

  lemma SplitAppend(s: string, seg: string)
    requires '/' !in seg
    ensures Split(s + "/" + seg) == Split(s) + [seg]
  {
    SplitAround(s, seg, '/');
    SplitWhole(seg, '/');
  }

  /** One path segment applied to the directory reached so far. */
  function Push(dir: seq<string>, seg: string): seq<string>
  {
    if seg == "" || seg == "." then dir
    else if seg == ".." then (if dir == [] then [] else dir[..|dir| - 1])
    else dir + [seg]
  }

  function Normal(parts: seq<string>): seq<string>
  {
    if parts == [] then [] else Push(Normal(parts[..|parts| - 1]), parts[|parts| - 1])
  }

  /** The absolute path of a list of segments. */
  function Render(segs: seq<string>): string
  {
    if segs == [] then "/"
    else if |segs| == 1 then "/" + segs[0]
    else Render(segs[..|segs| - 1]) + "/" + segs[|segs| - 1]
  }

  predicate CleanSegment(seg: string)
  {
    seg != "" && seg != "." && seg != ".." && '/' !in seg
  }

  predicate Clean(segs: seq<string>)
  {
    forall i :: 0 <= i < |segs| ==> CleanSegment(segs[i])
  }

  lemma {:induction false} NormalIsClean(parts: seq<string>)
    requires forall i :: 0 <= i < |parts| ==> '/' !in parts[i]
    ensures Clean(Normal(parts))
  {
    if parts != [] { NormalIsClean(parts[..|parts| - 1]); }
  }

  lemma NormalSnoc(parts: seq<string>, last: string)
    ensures Normal(parts + [last]) == Push(Normal(parts), last)
  {
    assert (parts + [last])[..|parts|] == parts;
  }

  lemma OneSegment(seg: string)
    requires '/' !in seg
    ensures Normal(Split("/" + seg)) == Push([], seg)
  {
    assert "/" + seg == "" + "/" + seg;
    SplitAppend("", seg);
    NormalSnoc([""], seg);
    assert Normal([""]) == [];
  }

  /** What normalising means, as equations that determine it: empty segments and "." do
      nothing, ".." undoes the segment before it and does nothing at the root, and clean
      segments stay. */
  lemma NormalIsResolution(a: seq<string>, seg: string, b: seq<string>)
    ensures Normal(a + [""] + b) == Normal(a + b) && Normal(a + ["."] + b) == Normal(a + b)
    ensures Normal([".."] + b) == Normal(b)
    ensures CleanSegment(seg) ==> Normal(a + [seg, ".."] + b) == Normal(a + b)
    ensures Clean(b) ==> Normal(b) == b
  {
    NormalSnoc(a, "");
    NormalSnoc(a, ".");
    NormalSnoc([], "..");
    SameFrom(a + [""], a, b);
    SameFrom(a + ["."], a, b);
    SameFrom([] + [".."], [], b);
    assert [] + [".."] + b == [".."] + b && [] + b == b;
    if CleanSegment(seg) { Undone(a, seg, b); }
    if Clean(b) { CleanIsNormal(b); }
  }

  /** The rest of a path only matters through where it starts. */
  lemma {:induction false} SameFrom(a: seq<string>, a': seq<string>, b: seq<string>)
    requires Normal(a) == Normal(a')
    ensures Normal(a + b) == Normal(a' + b)
  {
    if b == [] {
      assert a + b == a && a' + b == a';
    } else {
      var init, last := b[..|b| - 1], b[|b| - 1];
      SameFrom(a, a', init);
      assert b == init + [last];
      Regrouped(a, init, [last]);
      Regrouped(a', init, [last]);
      NormalSnoc(a + init, last);
      NormalSnoc(a' + init, last);
    }
  }

  lemma Undone(a: seq<string>, seg: string, b: seq<string>)
    requires CleanSegment(seg)
    ensures Normal(a + [seg, ".."] + b) == Normal(a + b)
  {
    NormalSnoc(a, seg);
    NormalSnoc(a + [seg], "..");
    TwoInARow(a, seg, "..");
    SameFrom(a + [seg, ".."], a, b);
  }

  lemma {:induction false} CleanIsNormal(segs: seq<string>)
    requires Clean(segs)
    ensures Normal(segs) == segs
  {
    if segs != [] {
      var init, last := segs[..|segs| - 1], segs[|segs| - 1];
      CleanIsNormal(init);
      NormalSnoc(init, last);
      assert segs == init + [last] && CleanSegment(last);
    }
  }

  /** The rendered path is the segments joined by slashes, after a slash. */
  lemma {:induction false} RenderIsJoined(segs: seq<string>)
    ensures Render(segs) == "/" + if segs == [] then "" else JoinWith(segs, '/')
  {
    if |segs| > 1 {
      var init, last := segs[..|segs| - 1], segs[|segs| - 1];
      RenderIsJoined(init);
      assert segs == init + [last];
      JoinSnoc(init, last, '/');
    }
  }

  /** The file name: the last part between slashes that is not empty, or else the whole path. */
  lemma BasenameIs(p: string)
    ensures (forall i :: 0 <= i < |SplitOn(p, '/')| ==> SplitOn(p, '/')[i] == "") ==> Basename(p) == p
    ensures forall i :: (0 <= i < |SplitOn(p, '/')| && SplitOn(p, '/')[i] != ""
                         && forall j :: i < j < |SplitOn(p, '/')| ==> SplitOn(p, '/')[j] == "") ==>
              Basename(p) == SplitOn(p, '/')[i]
  {
    var parts := SplitOn(p, '/');
    if forall i :: 0 <= i < |parts| ==> parts[i] == "" { AllEmpty(parts, p); }
    forall i | 0 <= i < |parts| && parts[i] != "" && forall j :: i < j < |parts| ==> parts[j] == ""
      ensures Basename(p) == parts[i]
    {
      LastNonEmptyAt(parts, p, i);
    }
  }

  lemma {:induction false} AllEmpty(parts: seq<string>, otherwise: string)
    requires forall i :: 0 <= i < |parts| ==> parts[i] == ""
    ensures LastNonEmpty(parts, otherwise) == otherwise
  {
    if parts != [] { AllEmpty(parts[..|parts| - 1], otherwise); }
  }

  lemma {:induction false} LastNonEmptyAt(parts: seq<string>, otherwise: string, i: nat)
    requires i < |parts| && parts[i] != "" && forall j :: i < j < |parts| ==> parts[j] == ""
    ensures LastNonEmpty(parts, otherwise) == parts[i]
  {
    if i < |parts| - 1 { LastNonEmptyAt(parts[..|parts| - 1], otherwise, i); }
  }

  /** Normalising a rendered clean path changes nothing. */
  lemma {:induction false} RenderedIsNormal(segs: seq<string>)
    requires Clean(segs)
    ensures Normal(Split(Render(segs))) == segs
  {
    if segs == [] {
      OneSegment("");
    } else if |segs| == 1 {
      OneSegment(segs[0]);
      assert Push([], segs[0]) == segs;
    } else {
      var init, last := segs[..|segs| - 1], segs[|segs| - 1];
      RenderedIsNormal(init);
      assert segs == init + [last] && CleanSegment(last);
      RenderedSnoc(init, last);
    }
  }

  lemma RenderedSnoc(init: seq<string>, last: string)
    requires init != [] && Normal(Split(Render(init))) == init && CleanSegment(last)
    ensures Normal(Split(Render(init + [last]))) == init + [last]
  {
    assert (init + [last])[..|init|] == init;
    SplitAppend(Render(init), last);
    NormalSnoc(Split(Render(init)), last);
  }

  /** `path.relative`: up to the common ancestor, then down. */
  function SharedPrefix(a: seq<string>, b: seq<string>): (n: nat)
    ensures n <= |a| && n <= |b| && a[..n] == b[..n]
    ensures n < |a| && n < |b| ==> a[n] != b[n]
  {
    if a == [] || b == [] || a[0] != b[0] then 0
    else
      var n := SharedPrefix(a[1..], b[1..]);
      assert a[..n + 1] == [a[0]] + a[1..][..n] && b[..n + 1] == [b[0]] + b[1..][..n];
      n + 1
  }

  function Join(segs: seq<string>): string
  {
    if segs == [] then "" else if |segs| == 1 then segs[0] else segs[0] + "/" + Join(segs[1..])
  }

  function Relative(from: seq<string>, to: seq<string>): string
  {
    var n := SharedPrefix(from, to);
    Join(seq(|from| - n, _ => "..") + to[n..])
  }

  predicate IsAbsolute(s: string)
  {
    s != "" && s[0] == '/'
  }

  predicate StartsWithDots(s: string)
  {
    ".." <= s
  }

  /** `resolveWithinRoot` for the data root with segments `root`. */
  function ResolveWithinRoot(root: seq<string>, candidate: string): Option<string>
  {
    if candidate == "" || !IsAbsolute(candidate) then None
    else
      var to := Normal(Split(candidate));
      var rel := Relative(root, to);
      if StartsWithDots(rel) || IsAbsolute(rel) then None else Some(Render(to))
  }

  lemma JoinedPrefix(segs: seq<string>)
    requires segs != [] && segs[0] != "" && segs[0] != "." && '/' !in segs[0]
    ensures StartsWithDots(Join(segs)) <==> StartsWithDots(segs[0])
    ensures !IsAbsolute(Join(segs))
  {
    var s, seg := Join(segs), segs[0];
    assert seg <= s;
    if StartsWithDots(s) { assert s[0] == '.' && s[1] == '.'; }
  }

  /** Exact containment: a path is accepted exactly when its normalised segments extend the
      root's and the first extra segment does not begin with ".."; the answer has only
      clean segments and is a fixed point. */
  lemma ContainmentIsExact(root: seq<string>, candidate: string)
    requires Clean(root) && IsAbsolute(candidate)
    ensures var to := Normal(Split(candidate));
            var r := ResolveWithinRoot(root, candidate);
            && Clean(to)
            && (r.Some? <==> root <= to && (|to| > |root| ==> !StartsWithDots(to[|root|])))
            && (r.Some? ==> r.value == Render(to) && Normal(Split(r.value)) == to
                            && ResolveWithinRoot(root, r.value) == r)
  {
    var to := Normal(Split(candidate));
    NormalIsClean(Split(candidate));
    RenderedIsNormal(to);
    RenderIsAbsolute(to);
    RelativeEscapes(root, to);
  }

  /** The relative path leads out of the root, or seems to, unless the target extends it. */
  lemma RelativeEscapes(root: seq<string>, to: seq<string>)
    requires Clean(root) && Clean(to)
    ensures !IsAbsolute(Relative(root, to))
    ensures !StartsWithDots(Relative(root, to)) <==> root <= to && (|to| > |root| ==> !StartsWithDots(to[|root|]))
  {
    var n := SharedPrefix(root, to);
    var down := seq(|root| - n, _ => "..") + to[n..];
    if n < |root| {
      assert down[0] == "..";
      JoinedPrefix(down);
      assert !(root <= to);
    } else {
      assert down == to[n..] && root <= to;
      if n < |to| {
        assert down[0] == to[n] && CleanSegment(to[n]);
        JoinedPrefix(down);
      }
    }
  }

  lemma RenderIsAbsolute(segs: seq<string>)
    ensures IsAbsolute(Render(segs))
    decreases |segs|
  {
    if |segs| > 1 { RenderIsAbsolute(segs[..|segs| - 1]); }
  }

  /** The last non-empty part of a virtual path, or the path itself. */
  function Basename(p: string): string
  {
    LastNonEmpty(Split(p), p)
  }

  function LastNonEmpty(parts: seq<string>, otherwise: string): string
  {
    if parts == [] then otherwise
    else if parts[|parts| - 1] != "" then parts[|parts| - 1]
    else LastNonEmpty(parts[..|parts| - 1], otherwise)
  }
}
