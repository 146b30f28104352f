/** Vocabulary shared by every module: options, results, bytes, and the ordered
    "oldest first, at most n" queries that the services send to the database. */
module Common {

  datatype Option<+T> = None | Some(value: T)

  datatype Result<+T, +E> = Ok(value: T) | Err(error: E)

  type Byte = x: int | 0 <= x < 256

  type Bytes = seq<Byte>

  /** The bytes carried by a sequence of stream chunks (empty chunks included). */
  function Concat(chunks: seq<Bytes>): Bytes
  {
    if chunks == [] then [] else Concat(chunks[..|chunks| - 1]) + chunks[|chunks| - 1]
  }

  lemma ConcatSnoc(chunks: seq<Bytes>, chunk: Bytes)
    ensures Concat(chunks + [chunk]) == Concat(chunks) + chunk
  {
    assert (chunks + [chunk])[..|chunks|] == chunks;
  }

  lemma {:induction false} ConcatCons(chunk: Bytes, chunks: seq<Bytes>)
    ensures Concat([chunk] + chunks) == chunk + Concat(chunks)
  {
    if chunks == [] {
      assert [chunk] + chunks == [] + [chunk];
      ConcatSnoc([], chunk);
    } else {
      var init, last := chunks[..|chunks| - 1], chunks[|chunks| - 1];
      assert [chunk] + chunks == ([chunk] + init) + [last];
      ConcatSnoc([chunk] + init, last);
      ConcatCons(chunk, init);
    }
  }

  /** `find({ order: stamp ASC, take: limit })` over the rows `m`: `ids` is a legal
      answer. Ties between equal stamps may be broken either way. */
  ghost predicate IsOldest<V>(m: map<nat, V>, stamp: V -> int, limit: nat, ids: seq<nat>)
  {
    && (forall i, j :: 0 <= i < j < |ids| ==> ids[i] != ids[j])
    && (forall i :: 0 <= i < |ids| ==> ids[i] in m)
    && |ids| == (if |m| < limit then |m| else limit)
    && (forall i, j :: 0 <= i < j < |ids| ==> stamp(m[ids[i]]) <= stamp(m[ids[j]]))
    && (forall i, k :: 0 <= i < |ids| && k in m && k !in ids ==> stamp(m[ids[i]]) <= stamp(m[k]))
  }

  lemma {:induction false} DistinctCount(ids: seq<nat>)
    requires forall i, j :: 0 <= i < j < |ids| ==> ids[i] != ids[j]
    ensures |ToSet(ids)| == |ids|
  {
    if ids != [] {
      var init, last := ids[..|ids| - 1], ids[|ids| - 1];
      DistinctCount(init);
      assert ToSet(ids) == ToSet(init) + {last} && last !in ToSet(init);
    }
  }

  lemma SubsetCount(a: set<nat>, b: set<nat>)
    requires a <= b
    ensures |a| <= |b|
  {
    assert b == a + (b - a);
  }

  /** A query that found fewer than its limit found everything. */
  lemma OldestIsAll<V>(m: map<nat, V>, stamp: V -> int, limit: nat, ids: seq<nat>, k: nat)
    requires IsOldest(m, stamp, limit, ids) && |ids| < limit && k in m
    ensures k in ids
  {
    DistinctCount(ids);
    if k !in ids { SubsetCount(ToSet(ids) + {k}, m.Keys); }
  }

  /** `s.split(sep)`. */
  function SplitOn(s: string, sep: char): (parts: seq<string>)
    ensures parts != [] && (|parts| > 1 <==> sep in s)
    ensures forall i :: 0 <= i < |parts| ==> sep !in parts[i]
  {
    if s == "" then [""]
    else
      var parts := SplitOn(s[..|s| - 1], sep);
      if s[|s| - 1] == sep then parts + [""]
      else parts[..|parts| - 1] + [parts[|parts| - 1] + [s[|s| - 1]]]
  }

  lemma SplitSnoc(s: string, c: char, sep: char)
    ensures var parts := SplitOn(s, sep);
            SplitOn(s + [c], sep) ==
            if c == sep then parts + [""] else parts[..|parts| - 1] + [parts[|parts| - 1] + [c]]
  {
    assert (s + [c])[..|s|] == s;
  }

  /** A separator splits. */
  lemma {:induction false} SplitAround(a: string, b: string, sep: char)
    ensures SplitOn(a + [sep] + b, sep) == SplitOn(a, sep) + SplitOn(b, sep)
  {
    if b == "" {
      SplitSnoc(a, sep, sep);
      assert a + [sep] + b == a + [sep];
    } else {
      var init, c := b[..|b| - 1], b[|b| - 1];
      assert b == init + [c] && a + [sep] + b == (a + [sep] + init) + [c];
      SplitAround(a, init, sep);
      SplitSnoc(a + [sep] + init, c, sep);
      SplitSnoc(init, c, sep);
      SplitsOn(SplitOn(a, sep), SplitOn(init, sep), c);
    }
  }

  lemma SplitsOn(before: seq<string>, parts: seq<string>, c: char)
    requires parts != []
    ensures before + parts + [""] == before + (parts + [""])
    ensures var all := before + parts;
            all[..|all| - 1] + [all[|all| - 1] + [c]] == before + (parts[..|parts| - 1] + [parts[|parts| - 1] + [c]])
  {
  }

  /** Nothing else does. */
  lemma {:induction false} SplitWhole(s: string, sep: char)
    requires sep !in s
    ensures SplitOn(s, sep) == [s]
  {
    if s != "" {
      SplitWhole(s[..|s| - 1], sep);
      assert s[..|s| - 1] + [s[|s| - 1]] == s;
    }
  }

  /** `parts.join(sep)`. */
  function JoinWith(parts: seq<string>, sep: char): string
    requires parts != []
  {
    if |parts| == 1 then parts[0] else Glue(JoinWith(parts[..|parts| - 1], sep), sep, parts[|parts| - 1])
  }

  function Glue(a: string, sep: char, b: string): string
  {
    a + [sep] + b
  }

  lemma JoinSnoc(parts: seq<string>, last: string, sep: char)
    requires parts != []
    ensures JoinWith(parts + [last], sep) == Glue(JoinWith(parts, sep), sep, last)
  {
    assert (parts + [last])[..|parts|] == parts;
  }

  lemma {:induction false} JoinSplit(s: string, sep: char)
    ensures JoinWith(SplitOn(s, sep), sep) == s
  {
    if s != "" {
      var init, c := s[..|s| - 1], s[|s| - 1];
      var parts := SplitOn(init, sep);
      JoinSplit(init, sep);
      assert s == init + [c];
      if c == sep {
        assert (parts + [""])[..|parts|] == parts;
      } else {
        var front, last := parts[..|parts| - 1], parts[|parts| - 1];
        assert (front + [last + [c]])[..|front|] == front;
      }
    }
  }

  lemma PrefixRest<T>(a: seq<T>, b: seq<T>, whole: seq<T>)
    requires a <= b && b <= whole
    ensures a <= whole && b[|a|..] == whole[|a|..][..|b| - |a|]
  {
  }

  /** Splitting a joined list cuts its last element apart. */
  lemma SplitJoinSnoc(parts: seq<string>, last: string, sep: char)
    requires parts != []
    ensures SplitOn(JoinWith(parts + [last], sep), sep) == SplitOn(JoinWith(parts, sep), sep) + SplitOn(last, sep)
  {
    JoinSnoc(parts, last, sep);
    SplitAround(JoinWith(parts, sep), last, sep);
  }

  lemma {:induction false} SplitJoin(parts: seq<string>, sep: char)
    requires parts != [] && forall i :: 0 <= i < |parts| ==> sep !in parts[i]
    ensures SplitOn(JoinWith(parts, sep), sep) == parts
  {
    var init, last := parts[..|parts| - 1], parts[|parts| - 1];
    assert parts == init + [last];
    SplitWhole(last, sep);
    if init != [] {
      SplitJoin(init, sep);
      SplitJoinSnoc(init, last, sep);
    }
  }

  // ---------------------------------------------------------------- sequences

  lemma FiveInARow<T>(a: T, b: T, c: T, d: T, e: T)
    ensures [a, b, c, d, e] == [a] + [b] + [c] + [d] + [e]
  {
  }

  lemma TwoInARow<T>(s: seq<T>, a: T, b: T)
    ensures s + [a] + [b] == s + [a, b]
  {
  }

  lemma Regrouped<T>(a: seq<T>, b: seq<T>, c: seq<T>)
    ensures a + b + c == a + (b + c)
  {
  }

  lemma TakenApart<T>(a: seq<T>, b: seq<T>, c: T, d: T, e: seq<T>)
    ensures var s := a + b + [c, d] + e;
            var i, j := |a|, |a| + |b|;
            |s| == j + 2 + |e| && s[..i] == a && s[i..j] == b && s[j] == c && s[j + 1] == d && s[j + 2..] == e
  {
  }

  lemma Reassembled<T>(s: seq<T>, i: nat, j: nat)
    requires i <= j && j + 2 <= |s|
    ensures s[..i] + s[i..j] + [s[j], s[j + 1]] + s[j + 2..] == s
  {
  }

  function ToSet(ids: seq<nat>): set<nat>
  {
    set id | id in ids
  }
}
