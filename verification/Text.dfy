// The in-place string replacement of lib/glib-compat.c and the token scan of
// lib/glib-compat.h, over C strings.

module Text {
  import opened Options

  type guint = n: int | 0 <= n < 0x1_0000_0000

  // The counter wraps around.
  function Wrap(n: nat): (w: guint)
    ensures n < 0x1_0000_0000 ==> w == n
  {
    n % 0x1_0000_0000
  }

  predicate OccursAt(s: string, find: string, i: nat) {
    i + |find| <= |s| && s[i..i + |find|] == find
  }

  // strstr: the first occurrence.
  function Find(s: string, find: string, from: nat := 0): (r: Option<nat>)
    requires from <= |s|
    ensures r.Some? ==> from <= r.value && OccursAt(s, find, r.value)
    decreases |s| - from
  {
    if OccursAt(s, find, from) then Some(from)
    else if from == |s| then None
    else Find(s, find, from + 1)
  }

  lemma {:induction false} FindIsFirst(s: string, find: string, from: nat)
    requires from <= |s|
    ensures forall i :: from <= i <= |s| && OccursAt(s, find, i) ==>
              Find(s, find, from).Some? && Find(s, find, from).value <= i
    decreases |s| - from
  {
    if !OccursAt(s, find, from) && from < |s| { FindIsFirst(s, find, from + 1); }
  }

  // 0 stands for no limit.
  function Less(limit: nat): nat {
    if limit == 0 then 0 else limit - 1
  }

  // The text cut at the occurrences that are replaced: from left to right, not
  // overlapping, and at most `limit` of them unless `limit` is 0.
  function Pieces(s: string, find: string, limit: nat): (ps: seq<string>)
    requires find != ""
    ensures ps != []
    decreases |s|
  {
    var at := Find(s, find);
    if at.None? then [s]
    else
      var rest := s[at.value + |find|..];
      [s[..at.value]] + if limit == 1 then [rest] else Pieces(rest, find, Less(limit))
  }

  function Join(ps: seq<string>, glue: string): string
    requires ps != []
  {
    if |ps| == 1 then ps[0] else ps[0] + glue + Join(ps[1..], glue)
  }

  function Replaced(s: string, find: string, replace: string, limit: nat): string {
    if find == "" then s else Join(Pieces(s, find, limit), replace)
  }

  function Occurrences(s: string, find: string, limit: nat): nat {
    if find == "" then 0 else |Pieces(s, find, limit)| - 1
  }

  // ---------- what the pieces are ----------

  lemma {:induction false} PiecesJoin(s: string, find: string, limit: nat)
    requires find != ""
    ensures Join(Pieces(s, find, limit), find) == s
    decreases |s|
  {
    var at := Find(s, find);
    if at.Some? {
      var rest := s[at.value + |find|..];
      assert s == s[..at.value] + find + rest;
      if limit != 1 { PiecesJoin(rest, find, Less(limit)); }
    }
  }

  // `find` does not start before the piece ends.
  ghost predicate EndsFirst(piece: string, find: string) {
    var t := piece + find;
    forall i :: 0 <= i < |piece| ==> !OccursAt(t, find, i)
  }

  ghost predicate Free(piece: string, find: string) {
    forall i :: 0 <= i <= |piece| ==> !OccursAt(piece, find, i)
  }

  // Every piece ends where `find` first occurs, and the last one is free of it
  // unless the limit was reached.
  ghost predicate Leftmost(ps: seq<string>, find: string, limit: nat)
    requires ps != []
    decreases |ps|
  {
    if |ps| == 1 then Free(ps[0], find)
    else EndsFirst(ps[0], find) && if limit == 1 then |ps| == 2 else Leftmost(ps[1..], find, Less(limit))
  }

  lemma OccursInHead(s: string, find: string, at: nat, i: nat)
    requires OccursAt(s, find, at) && i < at
    ensures OccursAt(s[..at] + find, find, i) <==> OccursAt(s, find, i)
  {
    var t := s[..at] + find;
    assert t == s[..at + |find|];
    if i + |find| <= |t| { assert t[i..i + |find|] == s[i..i + |find|]; }
  }

  lemma FindEndsFirst(s: string, find: string, at: nat)
    requires OccursAt(s, find, at)
    ensures Find(s, find) == Some(at) <==> EndsFirst(s[..at], find)
  {
    FindIsFirst(s, find, 0);
    var t := s[..at] + find;
    forall i | 0 <= i < at ensures OccursAt(t, find, i) <==> OccursAt(s, find, i) { OccursInHead(s, find, at, i); }
    assert at <= |s|;
    hide OccursAt, Find;
  }

  lemma {:induction false} PiecesAreLeftmost(s: string, find: string, limit: nat)
    requires find != ""
    ensures Leftmost(Pieces(s, find, limit), find, limit)
    decreases |s|
  {
    FindIsFirst(s, find, 0);
    if Find(s, find).Some? {
      var at := Find(s, find).value;
      FindEndsFirst(s, find, at);
      FirstPiece(s, find, limit, at);
      hide OccursAt, EndsFirst, Free, Find;
      var later := Later(s, find, at + |find|, limit);
      assert ([s[..at]] + later)[1..] == later;
      if limit != 1 { PiecesAreLeftmost(From(s, at + |find|), find, Less(limit)); }
    }
  }

  // No more cuts than the limit allows, and fewer only when nothing is left to cut;
  // every other piece ends where `find` first occurs.
  ghost predicate Kept(ps: seq<string>, find: string, limit: nat)
    requires ps != []
  {
    var n := |ps| - 1;
    && (limit > 0 ==> n <= limit) && (limit == 0 || n < limit ==> Free(ps[n], find))
    && forall i :: 0 <= i < n ==> EndsFirst(ps[i], find)
  }

  lemma KeptStep(ps: seq<string>, find: string, limit: nat)
    requires |ps| > 1 && EndsFirst(ps[0], find)
    requires if limit == 1 then |ps| == 2 else Kept(ps[1..], find, Less(limit))
    ensures Kept(ps, find, limit)
  {
    hide EndsFirst, Free;
    var later := ps[1..];
    assert later[|later| - 1] == ps[|ps| - 1];
    assert forall i :: 0 < i < |ps| ==> ps[i] == later[i - 1];
  }

  lemma {:induction false} LimitIsKept(s: string, find: string, limit: nat)
    requires find != ""
    ensures Kept(Pieces(s, find, limit), find, limit)
    decreases |s|
  {
    FindIsFirst(s, find, 0);
    if Find(s, find).Some? {
      var at := Find(s, find).value;
      FindEndsFirst(s, find, at);
      FirstPiece(s, find, limit, at);
      hide OccursAt, EndsFirst, Free, Find, Pieces, Kept;
      var later := Later(s, find, at + |find|, limit);
      assert ([Gap(s, 0, at)] + later)[1..] == later && Gap(s, 0, at) == s[..at];
      if limit != 1 { LimitIsKept(From(s, at + |find|), find, Less(limit)); }
      KeptStep(Pieces(s, find, limit), find, limit);
    }
  }

  // There is only one leftmost cut.
  lemma {:induction false} LeftmostIsUnique(ps: seq<string>, find: string, limit: nat)
    requires find != "" && ps != [] && Leftmost(ps, find, limit)
    ensures Pieces(Join(ps, find), find, limit) == ps
    decreases |ps|
  {
    var s := Join(ps, find);
    if |ps| > 1 {
      var tail := Join(ps[1..], find);
      var at := |ps[0]|;
      assert s[..at] == ps[0] && s[at..at + |find|] == find && s[at + |find|..] == tail;
      FindEndsFirst(s, find, at);
      if limit != 1 { LeftmostIsUnique(ps[1..], find, Less(limit)); }
    }
  }

  // Gluing other text in changes the length by that much per piece.
  lemma {:induction false} JoinLength(ps: seq<string>, a: string, b: string)
    requires ps != []
    ensures |Join(ps, b)| == |Join(ps, a)| + (|ps| - 1) * (|b| - |a|)
    decreases |ps|
  {
    if |ps| > 1 { JoinLength(ps[1..], a, b); }
  }

  lemma ReplacedLength(s: string, find: string, replace: string, limit: nat)
    ensures |Replaced(s, find, replace, limit)| == |s| + Occurrences(s, find, limit) * (|replace| - |find|)
  {
    if find != "" {
      PiecesJoin(s, find, limit);
      JoinLength(Pieces(s, find, limit), find, replace);
    }
  }

  // ---------- the buffer, and one round of the loop over it ----------

  function Erased(s: string, pos: nat, len: nat): (t: string)
    requires pos + len <= |s|
    ensures |t| == |s| - len
  {
    s[..pos] + s[pos + len..]
  }

  function Inserted(s: string, pos: nat, val: string): (t: string)
    requires pos <= |s|
    ensures |t| == |s| + |val|
  {
    s[..pos] + val + s[pos..]
  }

  function From(s: string, cur: nat): (t: string)
    requires cur <= |s|
    ensures |t| == |s| - cur
  {
    s[cur..]
  }

  // The text up to the cursor, then the pieces ahead of it glued with `replace`.
  function Outcome(s: string, cur: nat, ps: seq<string>, replace: string): string
    requires cur <= |s| && ps != []
  {
    s[..cur] + Join(ps, replace)
  }

  // The pieces behind the first one.
  function Later(s: string, find: string, at: nat, left: nat): (ps: seq<string>)
    requires find != "" && at <= |s|
    ensures ps != []
  {
    if left == 1 then [From(s, at)] else Pieces(From(s, at), find, Less(left))
  }

  function Gap(s: string, cur: nat, pos: nat): string
    requires cur <= pos <= |s|
  {
    s[cur..pos]
  }

  lemma GapFrom(s: string, cur: nat, k: nat)
    requires cur + k <= |s|
    ensures Gap(From(s, cur), 0, k) == Gap(s, cur, cur + k)
  {
  }

  lemma FirstPiece(s: string, find: string, left: nat, at: nat)
    requires find != "" && Find(s, find) == Some(at)
    ensures at + |find| <= |s|
    ensures Pieces(s, find, left) == [Gap(s, 0, at)] + Later(s, find, at + |find|, left)
  {
    assert OccursAt(s, find, at);
    var k := at + |find|;
    assert k <= |s|;
    hide OccursAt;
    assert Pieces(s, find, left) == [s[..at]] + if left == 1 then [s[k..]] else Pieces(s[k..], find, Less(left));
    hide Pieces, Find;
    assert Gap(s, 0, at) == s[..at] && From(s, k) == s[k..];
  }

  lemma LaterFrom(s: string, find: string, cur: nat, k: nat, left: nat)
    requires find != "" && cur + k <= |s|
    ensures Later(From(s, cur), find, k, left) == Later(s, find, cur + k, left)
  {
  }

  lemma LaterSpliced(s: string, find: string, pos: nat, val: string, left: nat)
    requires find != "" && pos + |find| <= |s|
    ensures Later(Inserted(Erased(s, pos, |find|), pos, val), find, pos + |val|, left) == Later(s, find, pos + |find|, left)
  {
  }

  lemma CutAt(s: string, find: string, cur: nat, left: nat, pos: nat)
    requires find != "" && cur <= |s| && Find(s, find, cur) == Some(pos)
    ensures cur <= pos && pos + |find| <= |s|
    ensures Pieces(From(s, cur), find, left) == [Gap(s, cur, pos)] + Later(s, find, pos + |find|, left)
  {
    hide *;
    FindShifted(s, find, cur, 0);
    var k := pos - cur;
    FirstPiece(From(s, cur), find, left, k);
    GapFrom(s, cur, k);
    LaterFrom(s, find, cur, k + |find|, left);
  }

  lemma OutcomeStep(s: string, cur: nat, pos: nat, len: nat, val: string, ps: seq<string>)
    requires cur <= pos && pos + len <= |s| && ps != []
    ensures Outcome(Inserted(Erased(s, pos, len), pos, val), pos + |val|, ps, val) == Outcome(s, cur, [Gap(s, cur, pos)] + ps, val)
  {
  }

  // A round keeps the outcome and has one piece fewer ahead.
  lemma Round(s: string, find: string, replace: string, cur: nat, left: nat, pos: nat)
    requires find != "" && cur <= |s| && Find(s, find, cur) == Some(pos)
    ensures cur <= pos && pos + |find| <= |s|
    ensures var after, cur' := Inserted(Erased(s, pos, |find|), pos, replace), pos + |replace|;
            var ps, ps' := Pieces(From(s, cur), find, left), Later(after, find, cur', left);
            |ps| == 1 + |ps'| && Outcome(after, cur', ps', replace) == Outcome(s, cur, ps, replace)
  {
    hide *;
    CutAt(s, find, cur, left, pos);
    LaterSpliced(s, find, pos, replace, left);
    OutcomeStep(s, cur, pos, |find|, replace, Later(s, find, pos + |find|, left));
  }

  lemma NothingToCut(s: string, find: string, cur: nat, left: nat)
    requires find != "" && cur <= |s| && Find(s, find, cur).None?
    ensures Pieces(From(s, cur), find, left) == [From(s, cur)]
  {
    FindShifted(s, find, cur, 0);
  }

  lemma AllDone(s: string, cur: nat, replace: string)
    requires cur <= |s|
    ensures Outcome(s, cur, [From(s, cur)], replace) == s
  {
  }

  lemma NothingDone(s: string, ps: seq<string>, replace: string)
    requires ps != []
    ensures From(s, 0) == s && Outcome(s, 0, ps, replace) == Join(ps, replace)
  {
  }

  lemma WrapNext(n: nat)
    ensures Wrap(Wrap(n) + 1) == Wrap(n + 1)
  {
  }

  class GString {
    var str: string

    constructor (str: string)
      ensures this.str == str
    {
      this.str := str;
    }

    method Erase(pos: nat, len: nat)
      requires pos + len <= |str|
      modifies this
      ensures str == Erased(old(str), pos, len)
    {
      str := str[..pos] + str[pos + len..];
    }

    method Insert(pos: nat, val: string)
      requires pos <= |str|
      modifies this
      ensures str == Inserted(old(str), pos, val)
    {
      str := str[..pos] + val + str[pos..];
    }

    method Replace(find: string, replace: string, limit: guint) returns (n: guint)
      modifies this
      ensures str == Replaced(old(str), find, replace, limit)
      ensures n == Wrap(Occurrences(old(str), find, limit))
    {
      n := 0;
      if find == "" { return; }
      var cur := 0;
      var next := Find(str, find, cur);
      ghost var count: nat, left: nat, more := 0, limit, Pieces(str, find, limit);
      ghost var total, goal := |more|, Join(more, replace);
      assert Replaced(str, find, replace, limit) == goal && Occurrences(str, find, limit) == total - 1;
      NothingDone(str, more, replace);
      hide Pieces, Join, Find, OccursAt, Wrap, Erased, Inserted, From, Outcome, Replaced, Occurrences;
      while next.Some?
        invariant 0 <= cur <= |str| && next == Find(str, find, cur)
        invariant n == Wrap(count) && (if limit == 0 then left == 0 else count + left == limit && left > 0)
        invariant more == Pieces(From(str, cur), find, left)
        invariant Outcome(str, cur, more, replace) == goal && count + |more| == total
        decreases |str| - cur
      {
        var pos := next.value;
        Round(str, find, replace, cur, left, pos);
        Erase(pos, |find|);
        Insert(pos, replace);
        cur := pos + |replace|;
        WrapNext(count);
        n := Wrap(n + 1);
        more := Later(str, find, cur, left);
        count, left := count + 1, Less(left);
        if limit != 0 && n == limit { break; }
        next := Find(str, find, cur);
      }
      if next.None? { NothingToCut(str, find, cur, left); }
      AllDone(str, cur, replace);
    }
  }

  lemma OccursInSuffix(s: string, find: string, from: nat, k: nat)
    requires from + k <= |s|
    ensures OccursAt(From(s, from), find, k) <==> OccursAt(s, find, from + k)
  {
  }

  lemma {:induction false} FindShifted(s: string, find: string, from: nat, k: nat)
    requires from + k <= |s|
    ensures Find(s, find, from + k).None? <==> Find(From(s, from), find, k).None?
    ensures Find(s, find, from + k).Some? ==> Find(From(s, from), find, k) == Some(Find(s, find, from + k).value - from)
    decreases |s| - from - k
  {
    OccursInSuffix(s, find, from, k);
    hide OccursAt, From;
    if from + k < |s| { FindShifted(s, find, from, k + 1); }
  }

  // ---------- the G_MESSAGES_DEBUG scan ----------

  predicate Separator(c: char) {
    c == ' ' || c == '\t' || c == ','
  }

  lemma SeparatorsAre(c: char)
    ensures Separator(c) <==> c in " \t,"
  {
    assert " \t," == [' ', '\t', ','];
  }

  // A word of the list: between separators or the ends of the text, and not empty.
  ghost predicate Lists(env: string, word: string, i: nat) {
    && word != "" && !Separator(word[0]) && OccursAt(env, word, i)
    && (i == 0 || Separator(env[i - 1]))
    && (i + |word| == |env| || Separator(env[i + |word|]))
  }

  // st_log_debug_enabled; None stands for an unset variable.
  method DebugEnabled(env: Option<string>, domain: string) returns (r: bool)
    ensures r <==> env.Some? && (env.value == "all" || exists i :: Lists(env.value, domain, i))
  {
    if env.None? || env.value == "" { return false; }
    if env.value == "all" { return true; }
    var text := env.value;
    var p := 0;
    while p < |text|
      invariant 0 <= p <= |text| && (0 < p < |text| ==> Separator(text[p]))
      invariant forall i :: 0 <= i < p ==> !Lists(text, domain, i)
      decreases |text| - p
    {
      ghost var from := p;
      while p < |text| && Separator(text[p])
        invariant from <= p <= |text|
        invariant p == 0 || Separator(text[p - 1]) || p == from
        invariant forall i :: 0 <= i < p ==> !Lists(text, domain, i)
      {
        NoWordAtSeparator(text, domain, p);
        p := p + 1;
      }
      if p == |text| { break; }
      if OccursAt(text, domain, p) {
        var end := p + |domain|;
        if end == |text| || Separator(text[end]) {
          assert domain != "";
          assert Lists(text, domain, p);
          return true;
        }
      }
      ghost var start := p;
      while p < |text| && !Separator(text[p])
        invariant start <= p <= |text|
        invariant forall k :: start <= k < p ==> !Separator(text[k])
      {
        p := p + 1;
      }
    }
    return false;
  }

  lemma NoWordAtSeparator(text: string, word: string, p: nat)
    requires p < |text| && Separator(text[p])
    ensures !Lists(text, word, p)
  {
  }
}
