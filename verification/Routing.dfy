/** Destination of a transfer: the first matching rule decides bucket and prefix. */
module Routing {
  import opened Common
  import opened Transfers

  /** An empty string stands for an absent setting, which the code treats alike. */
  datatype Rule = Rule(username: string, extension: string, pathPrefix: string, bucket: string, prefix: string)

  datatype Target = Target(bucket: string, key: string)

  function LowerChar(c: char): char
  {
    if 'A' <= c <= 'Z' then ((c as int) - ('A' as int) + ('a' as int)) as char else c
  }

  function Lower(s: string): string
  {
    seq(|s|, i requires 0 <= i < |s| => LowerChar(s[i]))
  }

  /** Index of the last '.', or -1. */
  function LastDot(s: string): (i: int)
    ensures -1 <= i < |s|
    ensures i >= 0 ==> s[i] == '.'
    ensures forall k :: i < k < |s| ==> s[k] != '.'
  {
    if s == "" then -1
    else if s[|s| - 1] == '.' then |s| - 1
    else LastDot(s[..|s| - 1])
  }

  /** `extname` of a file name without separators. */
  function Extname(s: string): string
  {
    var i := LastDot(s);
    if i <= 0 || s == ".." then "" else s[i..]
  }

  function StripLeading(s: string, c: char): string
  {
    if s != "" && s[0] == c then StripLeading(s[1..], c) else s
  }

  function DropOneDot(s: string): string
  {
    if s != "" && s[0] == '.' then s[1..] else s
  }

  predicate Matches(rule: Rule, input: Input)
  {
    && (rule.username == "" || rule.username == input.username)
    && (rule.extension == "" || Lower(Extname(input.filename)) == "." + DropOneDot(Lower(rule.extension)))
    && (rule.pathPrefix == "" || rule.pathPrefix <= input.virtualPath)
  }

  function Find(rules: seq<Rule>, input: Input): Option<Rule>
  {
    if rules == [] then None
    else if Matches(rules[0], input) then Some(rules[0])
    else Find(rules[1..], input)
  }

  function Resolve(rules: seq<Rule>, defaultBucket: string, input: Input): Target
  {
    var rule := Find(rules, input);
    var bucket := if rule.Some? && rule.value.bucket != "" then rule.value.bucket else defaultBucket;
    var prefix := if rule.Some? then rule.value.prefix else "";
    Target(bucket, prefix + input.username + "/" + StripLeading(input.virtualPath, '/'))
  }

  /** First match wins, both ways. */
  lemma {:induction false} FirstMatchWins(rules: seq<Rule>, input: Input)
    ensures Find(rules, input).None? <==> forall i :: 0 <= i < |rules| ==> !Matches(rules[i], input)
    ensures forall i ::
              (0 <= i < |rules| && Matches(rules[i], input) && forall j :: 0 <= j < i ==> !Matches(rules[j], input))
              ==> Find(rules, input) == Some(rules[i])
  {
    if rules != [] && !Matches(rules[0], input) {
      FirstMatchWins(rules[1..], input);
      assert forall i :: 0 < i < |rules| ==> rules[i] == rules[1..][i - 1];
    }
  }

  // ---------------------------------------------------------------- what the parts mean

  /** Letters in upper case become lower case, everything else stays. */
  lemma LowerIs(s: string)
    ensures |Lower(s)| == |s|
    ensures forall i :: 0 <= i < |s| ==>
              if 'A' <= s[i] <= 'Z' then Lower(s)[i] as int == s[i] as int + 32 else Lower(s)[i] == s[i]
  {
  }

  /** Strings with the same lower case differ in the case of letters only. */
  lemma LowerIgnoresCase(a: string, b: string)
    requires Lower(a) == Lower(b)
    ensures |a| == |b|
    ensures forall i :: 0 <= i < |a| ==>
              || a[i] == b[i]
              || ('a' <= a[i] <= 'z' && 'A' <= b[i] <= 'Z' && a[i] as int - 'a' as int == b[i] as int - 'A' as int)
              || ('A' <= a[i] <= 'Z' && 'a' <= b[i] <= 'z' && a[i] as int - 'A' as int == b[i] as int - 'a' as int)
  {
    LowerIs(a);
    LowerIs(b);
    forall i | 0 <= i < |a| ensures Lower(a)[i] == Lower(b)[i] { }
  }

  lemma CaseIsIgnored(a: string, b: string)
    requires |a| == |b|
    requires forall i :: 0 <= i < |a| ==>
               || a[i] == b[i]
               || ('a' <= a[i] <= 'z' && 'A' <= b[i] <= 'Z' && a[i] as int - 'a' as int == b[i] as int - 'A' as int)
               || ('A' <= a[i] <= 'Z' && 'a' <= b[i] <= 'z' && a[i] as int - 'A' as int == b[i] as int - 'a' as int)
    ensures Lower(a) == Lower(b)
  {
    LowerIs(a);
    LowerIs(b);
    forall i | 0 <= i < |a| ensures Lower(a)[i] == Lower(b)[i] { }
  }

  /** The virtual path without its leading slashes. */
  lemma {:induction false} StripLeadingIs(s: string, c: char)
    ensures var rest := StripLeading(s, c);
            && |rest| <= |s| && s[|s| - |rest|..] == rest && (rest != "" ==> rest[0] != c)
            && forall i :: 0 <= i < |s| - |rest| ==> s[i] == c
  {
    if s != "" && s[0] == c {
      var tail, rest := s[1..], StripLeading(s[1..], c);
      StripLeadingIs(tail, c);
      SliceOfTail(s, |tail| - |rest|);
      forall i | 0 <= i < |s| - |rest| ensures s[i] == c { if i > 0 { assert tail[i - 1] == s[i]; } }
    }
  }

  lemma SliceOfTail(s: string, k: nat)
    requires k < |s|
    ensures s[1..][k..] == s[k + 1..]
  {
  }

  /** From the last dot on, unless the name has none or only begins with it. */
  lemma ExtnameIs(s: string)
    ensures Extname(s) != "" ==>
              && |Extname(s)| < |s| && s[|s| - |Extname(s)|..] == Extname(s)
              && Extname(s)[0] == '.' && '.' !in Extname(s)[1..]
    ensures Extname(s) == "" <==> s == ".." || forall i :: 0 < i < |s| ==> s[i] != '.'
  {
    var i := LastDot(s);
    if i > 0 && s != ".." { assert s[i..][0] == '.' && forall k :: 0 <= k < |s[i..][1..]| ==>
      s[i..][1..][k] == s[i + 1 + k]; }
  }

  /** A rule matches when each setting that it has agrees: user name, extension in any case and
      with or without its dot, and beginning of the virtual path. */
  lemma MatchesExactly(rule: Rule, input: Input)
    ensures Matches(rule, input) <==>
            && (rule.username != "" ==> rule.username == input.username)
            && (rule.extension != "" ==>
                  Lower(Extname(input.filename))
                  == (if Lower(rule.extension)[0] == '.' then Lower(rule.extension) else "." + Lower(rule.extension)))
            && (rule.pathPrefix != "" ==>
                  |rule.pathPrefix| <= |input.virtualPath| && input.virtualPath[..|rule.pathPrefix|] == rule.pathPrefix)
  {
    var ext := Lower(rule.extension);
    if ext != "" && ext[0] == '.' { assert "." + ext[1..] == ext; }
  }

  /** Bucket and key: those of the first rule that matches, or the default bucket without a
      prefix; the user name, and the virtual path without its leading slashes. */
  lemma ResolvesTo(rules: seq<Rule>, defaultBucket: string, input: Input)
    ensures var target := Resolve(rules, defaultBucket, input);
            && (forall i ::
                  (0 <= i < |rules| && Matches(rules[i], input) && forall j :: 0 <= j < i ==>
                    !Matches(rules[j], input)) ==>
                    && target.bucket == (if rules[i].bucket != "" then rules[i].bucket else defaultBucket)
                    && target.key == rules[i].prefix + input.username + "/" + StripLeading(input.virtualPath, '/'))
            && ((forall i :: 0 <= i < |rules| ==> !Matches(rules[i], input)) ==>
                  && target.bucket == defaultBucket
                  && target.key == input.username + "/" + StripLeading(input.virtualPath, '/'))
  {
    FirstMatchWins(rules, input);
    assert "" + input.username == input.username;
  }
}
