/** `word_error_rate`: the two-row loop computes the least number of edits. */
module EditDistance {

  type Token = string

  function Min(a: nat, b: nat): nat { if a < b then a else b }

  function Init(s: seq<Token>): seq<Token>
    requires s != []
  {
    s[..|s| - 1]
  }

  function Last(s: seq<Token>): Token
    requires s != []
  {
    s[|s| - 1]
  }

  function Cost(r: Token, h: Token): nat { if r == h then 0 else 1 }

  /** The table that the loop fills, entry by entry. */
  function Distance(a: seq<Token>, b: seq<Token>): nat
    decreases |a| + |b|
  {
    if a == [] then |b|
    else if b == [] then |a|
    else Min(Min(Distance(Init(a), b) + 1, Distance(a, Init(b)) + 1),
        Distance(Init(a), Init(b)) + Cost(Last(a), Last(b)))
  }

  // ---------------------------------------------------------------- edits

  datatype Edit = Keep(t: Token) | Substitute(t: Token, u: Token) | Delete(t: Token) | Insert(u: Token)

  /** What a script of edits reads. */
  function Source(script: seq<Edit>): seq<Token> {
    if script == [] then []
    else
      var e := script[|script| - 1];
      Source(script[..|script| - 1]) + if e.Insert? then [] else [e.t]
  }

  /** What it writes. */
  function Target(script: seq<Edit>): seq<Token> {
    if script == [] then []
    else
      var e := script[|script| - 1];
      Target(script[..|script| - 1]) + match e
                                       case Keep(t) => [t]
                                       case Substitute(_, u) => [u]
                                       case Delete(_) => []
                                       case Insert(u) => [u]
  }

  /** Its substitutions, deletions and insertions. */
  function Edits(script: seq<Edit>): nat {
    if script == [] then 0
    else Edits(script[..|script| - 1]) + if script[|script| - 1].Keep? then 0 else 1
  }

  /** No script of edits is cheaper. */
  lemma {:induction false} NoScriptIsCheaper(script: seq<Edit>)
    ensures Distance(Source(script), Target(script)) <= Edits(script)
  {
    if script != [] {
      var n := |script| - 1;
      NoScriptIsCheaper(script[..n]);
      var a, b := Source(script[..n]), Target(script[..n]);
      match script[n]
      case Keep(t) => LastEdit(a, b, [t], [t]);
      case Substitute(t, u) => LastEdit(a, b, [t], [u]);
      case Delete(t) => LastEdit(a, b, [t], []);
      case Insert(u) => LastEdit(a, b, [], [u]);
    }
  }

  /** Appending at most one token to either side costs at most one edit. */
  lemma LastEdit(a: seq<Token>, b: seq<Token>, x: seq<Token>, y: seq<Token>)
    requires |x| <= 1 && |y| <= 1
    ensures Distance(a + x, b + y) <= Distance(a, b) + if x == y then 0 else 1
  {
    if x == [] && y == [] { assert a + x == a && b + y == b; }
    else if x == [] { assert a + x == a && Init(b + y) == b; EmptySide(a, b); }
    else if y == [] { assert b + y == b && Init(a + x) == a; EmptySide(a, b); }
    else { assert Init(a + x) == a && Init(b + y) == b && Last(a + x) == x[0] && Last(b + y) == y[0]; }
  }

  lemma EmptySide(a: seq<Token>, b: seq<Token>)
    ensures a == [] ==> Distance(a, b) == |b|
    ensures b == [] ==> Distance(a, b) == |a|
  {
  }

  lemma ScriptAppend(script: seq<Edit>, e: Edit)
    ensures Source(script + [e]) == Source(script) + (if e.Insert? then [] else [e.t])
    ensures Target(script + [e]) == Target(script)
            + (if e.Insert? || e.Substitute? then [e.u] else if e.Keep? then [e.t] else [])
    ensures Edits(script + [e]) == Edits(script) + if e.Keep? then 0 else 1
  {
    assert (script + [e])[..|script|] == script;
  }

  lemma NoEdits()
    ensures Source([]) == [] && Target([]) == [] && Edits([]) == 0
  {
  }

  /** And some script costs exactly that. */
  lemma {:induction false} SomeScriptReachesIt(a: seq<Token>, b: seq<Token>) returns (script: seq<Edit>)
    ensures Source(script) == a && Target(script) == b && Edits(script) == Distance(a, b)
    decreases |a| + |b|
  {
    hide Source, Target, Edits;
    NoEdits();
    assert a != [] ==> a == Init(a) + [Last(a)];
    assert b != [] ==> b == Init(b) + [Last(b)];
    if a == [] && b == [] { script := []; }
    else if a == [] || (b != [] && Distance(a, b) == Distance(a, Init(b)) + 1) {
      var s := SomeScriptReachesIt(a, Init(b));
      ScriptAppend(s, Insert(Last(b)));
      script := s + [Insert(Last(b))];
    } else if b == [] || Distance(a, b) == Distance(Init(a), b) + 1 {
      var s := SomeScriptReachesIt(Init(a), b);
      ScriptAppend(s, Delete(Last(a)));
      script := s + [Delete(Last(a))];
    } else {
      var s := SomeScriptReachesIt(Init(a), Init(b));
      var e := if Last(a) == Last(b) then Keep(Last(a)) else Substitute(Last(a), Last(b));
      ScriptAppend(s, e);
      script := s + [e];
    }
  }

  // ---------------------------------------------------------------- a metric

  lemma {:induction false} ZeroOnlyOnEqual(a: seq<Token>, b: seq<Token>)
    ensures Distance(a, b) == 0 <==> a == b
    decreases |a|
  {
    if a != [] && b != [] {
      ZeroOnlyOnEqual(Init(a), Init(b));
      assert a == Init(a) + [Last(a)] && b == Init(b) + [Last(b)];
    }
  }

  lemma {:induction false} AtMostLonger(a: seq<Token>, b: seq<Token>)
    ensures Distance(a, b) <= if |a| < |b| then |b| else |a|
    decreases |a|
  {
    if a != [] && b != [] { AtMostLonger(Init(a), Init(b)); }
  }

  lemma {:induction false} Symmetric(a: seq<Token>, b: seq<Token>)
    ensures Distance(a, b) == Distance(b, a)
    decreases |a| + |b|
  {
    if a != [] && b != [] {
      Symmetric(Init(a), b);
      Symmetric(a, Init(b));
      Symmetric(Init(a), Init(b));
    }
  }

  /** One more token on one side changes the distance by at most one edit. */
  lemma OneMore(a: seq<Token>, b: seq<Token>)
    ensures a != [] ==> Distance(a, b) <= Distance(Init(a), b) + 1
    ensures b != [] ==> Distance(a, b) <= Distance(a, Init(b)) + 1
    ensures a != [] && b != [] ==> Distance(a, b) <= Distance(Init(a), Init(b)) + Cost(Last(a), Last(b))
  {
    if a != [] { EmptySide(Init(a), b); }
    if b != [] { EmptySide(a, Init(b)); }
  }

  lemma {:induction false} Triangle(a: seq<Token>, b: seq<Token>, c: seq<Token>)
    ensures Distance(a, c) <= Distance(a, b) + Distance(b, c)
    decreases |a| + |b| + |c|
  {
    OneMore(a, c);
    if a != [] && (b == [] || Distance(a, b) == Distance(Init(a), b) + 1) {
      EmptySide(Init(a), b);
      Triangle(Init(a), b, c);
    } else if c != [] && (b == [] || Distance(b, c) == Distance(b, Init(c)) + 1) {
      EmptySide(b, Init(c));
      Triangle(a, b, Init(c));
    } else if b != [] {
      if a == [] || Distance(a, b) == Distance(a, Init(b)) + 1 {
        EmptySide(a, Init(b));
        if c == [] || Distance(b, c) == Distance(Init(b), c) + 1 {
          EmptySide(Init(b), c);
          Triangle(a, Init(b), c);
        } else {
          Triangle(a, Init(b), Init(c));
        }
      } else if c == [] || Distance(b, c) == Distance(Init(b), c) + 1 {
        EmptySide(Init(b), c);
        Triangle(Init(a), Init(b), c);
      } else {
        Triangle(Init(a), Init(b), Init(c));
      }
    }
  }

  // ---------------------------------------------------------------- the loop

  /** A row of the table: the distances from `a` to every prefix of `b`. */
  ghost predicate Row(row: seq<nat>, a: seq<Token>, b: seq<Token>) {
    |row| <= |b| + 1 && forall j :: 0 <= j < |row| ==> row[j] == Distance(a, b[..j])
  }

  lemma Entry(a: seq<Token>, b: seq<Token>, i: nat, j: nat)
    requires 0 < i <= |a| && 0 < j <= |b|
    ensures Distance(a[..i], b[..j])
         == Min(Min(Distance(a[..i - 1], b[..j]) + 1, Distance(a[..i], b[..j - 1]) + 1),
                Distance(a[..i - 1], b[..j - 1]) + Cost(a[i - 1], b[j - 1]))
  {
    assert Init(a[..i]) == a[..i - 1] && Init(b[..j]) == b[..j - 1];
  }

  lemma Borders(a: seq<Token>, b: seq<Token>, j: nat)
    requires j <= |b|
    ensures Distance([], b[..j]) == j && Distance(a, b[..0]) == |a|
  {
  }

  /** The next entry of a row. */
  lemma NextEntry(a: seq<Token>, b: seq<Token>, i: nat, j: nat, prev: seq<nat>, curr: seq<nat>)
    requires 0 < i <= |a| && 0 < j <= |b|
    requires |prev| == |b| + 1 && Row(prev, a[..i - 1], b) && |curr| == j && Row(curr, a[..i], b)
    ensures Row(curr + [Min(Min(prev[j] + 1, curr[j - 1] + 1), prev[j - 1] + Cost(a[i - 1], b[j - 1]))], a[..i], b)
  {
    hide Distance;
    Entry(a, b, i, j);
  }

  method EditDistance(ref: seq<Token>, hyp: seq<Token>) returns (d: nat)
    ensures d == Distance(ref, hyp)
  {
    hide Distance, Row;
    var prev: seq<nat> := seq(|hyp| + 1, j requires 0 <= j => j);
    FirstRow(prev, hyp);
    var i := 0;
    while i < |ref|
      invariant 0 <= i <= |ref|
      invariant |prev| == |hyp| + 1 && Row(prev, ref[..i], hyp)
    {
      i := i + 1;
      var curr: seq<nat> := [i];
      FirstEntry(curr, ref[..i], hyp);
      var j := 0;
      while j < |hyp|
        invariant 0 <= j <= |hyp|
        invariant |curr| == j + 1 && Row(curr, ref[..i], hyp)
      {
        j := j + 1;
        NextEntry(ref, hyp, i, j, prev, curr);
        curr := curr + [Min(Min(prev[j] + 1, curr[j - 1] + 1), prev[j - 1] + Cost(ref[i - 1], hyp[j - 1]))];
      }
      prev := curr;
    }
    assert ref[..i] == ref;
    LastOfRow(prev, ref, hyp);
    d := prev[|prev| - 1];
  }

  lemma FirstRow(row: seq<nat>, b: seq<Token>)
    requires |row| == |b| + 1 && forall j :: 0 <= j < |row| ==> row[j] == j
    ensures Row(row, [], b)
  {
    forall j | 0 <= j < |row|
      ensures row[j] == Distance([], b[..j])
    {
      Borders([], b, j);
    }
  }

  lemma FirstEntry(row: seq<nat>, a: seq<Token>, b: seq<Token>)
    requires row == [|a|]
    ensures Row(row, a, b)
  {
    Borders(a, b, 0);
  }

  lemma LastOfRow(row: seq<nat>, a: seq<Token>, b: seq<Token>)
    requires |row| == |b| + 1 && Row(row, a, b)
    ensures row[|b|] == Distance(a, b)
  {
    assert b[..|b|] == b;
  }

  /** On the normalised token lists; an empty reference is a special case. */
  method WordErrorRate(ref: seq<Token>, hyp: seq<Token>) returns (wer: real)
    ensures ref == [] ==> wer == if hyp == [] then 0.0 else 1.0
    ensures ref != [] ==> wer == Distance(ref, hyp) as real / |ref| as real
    ensures wer == 0.0 <==> ref == hyp
  {
    ZeroOnlyOnEqual(ref, hyp);
    if ref == [] { return if hyp == [] then 0.0 else 1.0; }
    var d := EditDistance(ref, hyp);
    wer := d as real / |ref| as real;
  }
}
