/** Word error rate: the dynamic program of the speech-recognition evaluation against its meaning,
    the cheapest script of insertions, deletions and substitutions. Words are already normalised
    and split; only their equality matters. */
module WordErrorRate {
  import opened Options

  // ---- Edit scripts ----

  datatype Edit<T> = Keep | Substitute(word: T) | Delete | Insert(word: T)

  /** The words an edit leaves behind; `last` is the word it stands at. */
  function Left<T>(edit: Edit<T>, last: T): seq<T> {
    match edit
    case Keep => [last]
    case Substitute(w) => [w]
    case Delete => []
    case Insert(w) => [w]
  }

  /** What a script makes of a word list, if it fits it exactly. */
  function Edited<T>(script: seq<Edit<T>>, words: seq<T>): Option<seq<T>>
    decreases |script|
  {
    if script == [] then if words == [] then Some([]) else None
    else
      var n := |script| - 1;
      if script[n].Insert? then
        var before := Edited(script[..n], words);
        if before.Some? then Some(before.value + [script[n].word]) else None
      else if words == [] then None
      else
        var before := Edited(script[..n], words[..|words| - 1]);
        if before.Some? then Some(before.value + Left(script[n], words[|words| - 1])) else None
  }

  function Cost<T>(script: seq<Edit<T>>): nat {
    if script == [] then 0
    else Cost(script[..|script| - 1]) + if script[|script| - 1].Keep? then 0 else 1
  }

  // ---- The recurrence ----

  function Min(a: nat, b: nat): nat { if a <= b then a else b }

  function Distance<T(==)>(a: seq<T>, b: seq<T>): nat
    decreases |a| + |b|
  {
    if a == [] then |b|
    else if b == [] then |a|
    else
      var a', b' := a[..|a| - 1], b[..|b| - 1];
      var change := if a[|a| - 1] == b[|b| - 1] then 0 else 1;
      Min(Min(Distance(a', b) + 1, Distance(a, b') + 1), Distance(a', b') + change)
  }

  // ---- The recurrence is the cheapest script ----

  /** A cheapest last edit towards `b`, and the two lists it leaves to be matched before it. */
  function LastEdit<T(==)>(a: seq<T>, b: seq<T>): (step: (Edit<T>, seq<T>, seq<T>))
    requires a != [] || b != []
    ensures |step.1| + |step.2| < |a| + |b|
  {
    if a == [] then (Insert(b[|b| - 1]), a, b[..|b| - 1])
    else if b == [] then (Delete, a[..|a| - 1], b)
    else
      var a', b' := a[..|a| - 1], b[..|b| - 1];
      if Distance(a, b) == Distance(a', b) + 1 then (Delete, a', b)
      else if Distance(a, b) == Distance(a, b') + 1 then (Insert(b[|b| - 1]), a, b')
      else if a[|a| - 1] == b[|b| - 1] then (Keep, a', b')
      else (Substitute(b[|b| - 1]), a', b')
  }

  function BestScript<T(==)>(a: seq<T>, b: seq<T>): seq<Edit<T>>
    decreases |a| + |b|
  {
    if a == [] && b == [] then []
    else
      var (edit, a', b') := LastEdit(a, b);
      BestScript(a', b') + [edit]
  }

  lemma OneMoreEdit<T>(script: seq<Edit<T>>, edit: Edit<T>, a: seq<T>)
    ensures Cost(script + [edit]) == Cost(script) + if edit.Keep? then 0 else 1
    ensures edit.Insert? && Edited(script, a).Some? ==>
              Edited(script + [edit], a) == Some(Edited(script, a).value + [edit.word])
    ensures !edit.Insert? && a != [] && Edited(script, a[..|a| - 1]).Some? ==>
              Edited(script + [edit], a) == Some(Edited(script, a[..|a| - 1]).value + Left(edit, a[|a| - 1]))
  {
    var longer := script + [edit];
    assert longer[..|longer| - 1] == script && longer[|longer| - 1] == edit;
  }

  lemma LastEditCost<T>(a: seq<T>, b: seq<T>)
    requires a != [] || b != []
    ensures var (edit, a', b') := LastEdit(a, b);
            Distance(a, b) == Distance(a', b') + if edit.Keep? then 0 else 1
  {
  }

  /** `edit`, done last, leads from a script for `a'` and `b'` to one for `a` and `b`. */
  predicate Leads<T(==)>(edit: Edit<T>, a': seq<T>, b': seq<T>, a: seq<T>, b: seq<T>) {
    if edit.Insert? then a' == a && b == b' + [edit.word]
    else a != [] && a' == a[..|a| - 1] && b == b' + Left(edit, a[|a| - 1])
  }

  lemma LastEditLeads<T>(a: seq<T>, b: seq<T>)
    requires a != [] || b != []
    ensures var (edit, a', b') := LastEdit(a, b);
            Leads(edit, a', b', a, b)
  {
    if b != [] {
      assert b[..|b| - 1] + [b[|b| - 1]] == b;
    }
    assert b + [] == b;
  }

  lemma LeadsApplies<T>(edit: Edit<T>, a': seq<T>, b': seq<T>, a: seq<T>, b: seq<T>, script: seq<Edit<T>>)
    requires Leads(edit, a', b', a, b)
    requires Edited(script, a') == Some(b')
    ensures Edited(script + [edit], a) == Some(b)
  {
    OneMoreEdit(script, edit, a);
  }

  lemma {:induction false} BestScriptWorks<T>(a: seq<T>, b: seq<T>)
    ensures Edited(BestScript(a, b), a) == Some(b)
    ensures Cost(BestScript(a, b)) == Distance(a, b)
    decreases |a| + |b|
  {
    if a != [] || b != [] {
      var (edit, a', b') := LastEdit(a, b);
      BestScriptWorks(a', b');
      LastEditCost(a, b);
      LastEditLeads(a, b);
      LeadsApplies(edit, a', b', a, b, BestScript(a', b'));
      OneMoreEdit(BestScript(a', b'), edit, a);
    }
  }

  lemma {:induction false} NoCheaperScript<T>(script: seq<Edit<T>>, a: seq<T>, b: seq<T>)
    requires Edited(script, a) == Some(b)
    ensures Distance(a, b) <= Cost(script)
    decreases |script|
  {
    if script != [] {
      var n := |script| - 1;
      match script[n] {
        case Insert(w) =>
          var before := Edited(script[..n], a).value;
          NoCheaperScript(script[..n], a, before);
          assert b[..|b| - 1] == before;
        case Delete =>
          assert Edited(script[..n], a[..|a| - 1]).value + [] == Edited(script[..n], a[..|a| - 1]).value;
          NoCheaperScript(script[..n], a[..|a| - 1], b);
        case _ =>
          var before := Edited(script[..n], a[..|a| - 1]).value;
          NoCheaperScript(script[..n], a[..|a| - 1], before);
          assert b[..|b| - 1] == before;
      }
    }
  }

  /** The distance is the least cost over all scripts that turn `a` into `b`: some script costs
      that much, and none costs less. */
  lemma DistanceIsCheapestScript<T>(a: seq<T>, b: seq<T>)
    ensures exists script :: Edited(script, a) == Some(b) && Cost(script) == Distance(a, b)
    ensures forall script :: Edited(script, a) == Some(b) ==> Distance(a, b) <= Cost(script)
  {
    BestScriptWorks(a, b);
    forall script | Edited(script, a) == Some(b)
      ensures Distance(a, b) <= Cost(script)
    {
      NoCheaperScript(script, a, b);
    }
  }

  // ---- It is a metric ----

  lemma {:induction false} FreeScriptKeeps<T>(script: seq<Edit<T>>, a: seq<T>)
    requires Edited(script, a).Some? && Cost(script) == 0
    ensures Edited(script, a) == Some(a)
    decreases |script|
  {
    if script != [] {
      var n := |script| - 1;
      FreeScriptKeeps(script[..n], a[..|a| - 1]);
      assert a == a[..|a| - 1] + [a[|a| - 1]];
    }
  }

  lemma {:induction false} DistanceToSelf<T>(a: seq<T>)
    ensures Distance(a, a) == 0
    decreases |a|
  {
    if a != [] {
      DistanceToSelf(a[..|a| - 1]);
    }
  }

  lemma {:induction false} DistanceZeroIffEqual<T>(a: seq<T>, b: seq<T>)
    ensures Distance(a, b) == 0 <==> a == b
  {
    if Distance(a, b) == 0 {
      BestScriptWorks(a, b);
      FreeScriptKeeps(BestScript(a, b), a);
    }
    DistanceToSelf(a);
  }

  lemma {:induction false} DistanceSymmetric<T>(a: seq<T>, b: seq<T>)
    ensures Distance(a, b) == Distance(b, a)
    decreases |a| + |b|
  {
    if a != [] && b != [] {
      DistanceSymmetric(a[..|a| - 1], b);
      DistanceSymmetric(a, b[..|b| - 1]);
      DistanceSymmetric(a[..|a| - 1], b[..|b| - 1]);
    }
  }

  /** One script doing the work of two in sequence. */
  function Compose<T>(p: seq<Edit<T>>, q: seq<Edit<T>>): seq<Edit<T>>
    decreases |p| + |q|
  {
    if q != [] && q[|q| - 1].Insert? then Compose(p, q[..|q| - 1]) + [q[|q| - 1]]
    else if p != [] && p[|p| - 1].Delete? then Compose(p[..|p| - 1], q) + [Delete]
    else if p == [] || q == [] then []
    else
      var rest := Compose(p[..|p| - 1], q[..|q| - 1]);
      match (p[|p| - 1], q[|q| - 1])
      case (Insert(_), Delete) => rest
      case (Insert(_), Substitute(v)) => rest + [Insert(v)]
      case (Insert(w), _) => rest + [Insert(w)]
      case (_, Delete) => rest + [Delete]
      case (_, Substitute(v)) => rest + [Substitute(v)]
      case (last, _) => rest + [last]
  }

  lemma {:induction false} ComposeWorks<T>(p: seq<Edit<T>>, q: seq<Edit<T>>, a: seq<T>, b: seq<T>, c: seq<T>)
    requires Edited(p, a) == Some(b)
    requires Edited(q, b) == Some(c)
    ensures Edited(Compose(p, q), a) == Some(c)
    ensures Cost(Compose(p, q)) <= Cost(p) + Cost(q)
    decreases |p| + |q|
  {
    if q != [] && q[|q| - 1].Insert? {
      var q' := q[..|q| - 1];
      ComposeWorks(p, q', a, b, Edited(q', b).value);
      OneMoreEdit(Compose(p, q'), q[|q| - 1], a);
    } else if p != [] && p[|p| - 1].Delete? {
      var p' := p[..|p| - 1];
      assert Edited(p', a[..|a| - 1]).value + [] == Edited(p', a[..|a| - 1]).value;
      ComposeWorks(p', q, a[..|a| - 1], b, c);
      OneMoreEdit(Compose(p', q), Delete, a);
      assert c + [] == c;
    } else if p != [] && q != [] {
      ComposeBoth(p, q, a, b, c);
    }
  }

  /** The remaining case of `ComposeWorks`: `p` ends by producing the word `q` ends by consuming. */
  lemma {:induction false} ComposeBoth<T>(p: seq<Edit<T>>, q: seq<Edit<T>>, a: seq<T>, b: seq<T>, c: seq<T>)
    requires p != [] && q != [] && !q[|q| - 1].Insert? && !p[|p| - 1].Delete?
    requires Edited(p, a) == Some(b)
    requires Edited(q, b) == Some(c)
    ensures Edited(Compose(p, q), a) == Some(c)
    ensures Cost(Compose(p, q)) <= Cost(p) + Cost(q)
    decreases |p| + |q|, 0
  {
    var r := Compose(p, q);
    var p', q' := p[..|p| - 1], q[..|q| - 1];
    var rest := Compose(p', q');
    var b' := b[..|b| - 1];
    var a' := if p[|p| - 1].Insert? then a else a[..|a| - 1];
    assert Edited(p', a').value == b';
    var c' := Edited(q', b').value;
    ComposeWorks(p', q', a', b', c');
    assert c' + [] == c';
    if r != rest {
      OneMoreEdit(rest, r[|r| - 1], a);
    }
  }

  lemma DistanceTriangle<T>(a: seq<T>, b: seq<T>, c: seq<T>)
    ensures Distance(a, c) <= Distance(a, b) + Distance(b, c)
  {
    BestScriptWorks(a, b);
    BestScriptWorks(b, c);
    ComposeWorks(BestScript(a, b), BestScript(b, c), a, b, c);
    NoCheaperScript(Compose(BestScript(a, b), BestScript(b, c)), a, c);
  }

  /** Between the difference of the lengths and the longer length. */
  lemma {:induction false} DistanceBounds<T>(a: seq<T>, b: seq<T>)
    ensures |a| - |b| <= Distance(a, b)
    ensures |b| - |a| <= Distance(a, b)
    ensures Distance(a, b) <= if |a| <= |b| then |b| else |a|
    decreases |a| + |b|
  {
    if a != [] && b != [] {
      DistanceBounds(a[..|a| - 1], b);
      DistanceBounds(a, b[..|b| - 1]);
      DistanceBounds(a[..|a| - 1], b[..|b| - 1]);
    }
  }

  // ---- The table ----

  method Rate<T(==)>(reference: seq<T>, hypothesis: seq<T>) returns (rate: real)
    ensures reference != [] ==> rate == Distance(reference, hypothesis) as real / |reference| as real
    ensures reference == [] ==> rate == if hypothesis == [] then 0.0 else 1.0
    ensures rate == 0.0 <==> reference == hypothesis
  {
    DistanceZeroIffEqual(reference, hypothesis);
    var n, m := |reference|, |hypothesis|;
    if n == 0 {
      return if m == 0 then 0.0 else 1.0;
    }
    var dp := new nat[n + 1, m + 1]((i, j) => 0);
    FillBorders(dp, reference, hypothesis);
    for i := 1 to n + 1
      invariant Filled(dp, reference, hypothesis, i, 1)
    {
      for j := 1 to m + 1
        invariant Filled(dp, reference, hypothesis, i, j)
      {
        FillCell(dp, reference, hypothesis, i, j);
      }
    }
    assert reference[..n] == reference && hypothesis[..m] == hypothesis;
    rate := dp[n, m] as real / n as real;
  }

  method FillBorders<T>(dp: array2<nat>, a: seq<T>, b: seq<T>)
    requires dp.Length0 == |a| + 1 && dp.Length1 == |b| + 1
    modifies dp
    ensures Filled(dp, a, b, 1, 1)
  {
    for i := 0 to |a| + 1
      invariant forall k :: 0 <= k < i ==> dp[k, 0] == k
    {
      dp[i, 0] := i;
    }
    for j := 0 to |b| + 1
      invariant forall k :: 0 <= k <= |a| ==> dp[k, 0] == k
      invariant forall l :: 0 <= l < j ==> dp[0, l] == l
    {
      dp[0, j] := j;
    }
  }

  method FillCell<T(==)>(dp: array2<nat>, a: seq<T>, b: seq<T>, i: nat, j: nat)
    requires dp.Length0 == |a| + 1 && dp.Length1 == |b| + 1
    requires 1 <= i <= |a| && 1 <= j <= |b|
    requires Filled(dp, a, b, i, j)
    modifies dp
    ensures Filled(dp, a, b, i, j + 1)
  {
    var cost := if a[i - 1] == b[j - 1] then 0 else 1;
    var cell := Min(Min(dp[i - 1, j] + 1, dp[i, j - 1] + 1), dp[i - 1, j - 1] + cost);
    assert cell == Distance(a[..i], b[..j]) by {
      DistanceOfPrefixes(a, b, i, j);
      assert dp[i - 1, j] == Distance(a[..i - 1], b[..j]);
      assert dp[i, j - 1] == Distance(a[..i], b[..j - 1]);
      assert dp[i - 1, j - 1] == Distance(a[..i - 1], b[..j - 1]);
    }
    dp[i, j] := cell;
  }

  /** The borders, all rows above `i`, and row `i` up to column `j` hold the distances between
      the prefixes they stand for. */
  ghost predicate Filled<T>(dp: array2<nat>, a: seq<T>, b: seq<T>, i: nat, j: nat)
    requires dp.Length0 == |a| + 1 && dp.Length1 == |b| + 1
    reads dp
  {
    forall k, l :: 0 <= k <= |a| && 0 <= l <= |b| && (k == 0 || l == 0 || k < i || (k == i && l < j)) ==>
      dp[k, l] == Distance(a[..k], b[..l])
  }

  lemma DistanceSnoc<T>(a: seq<T>, v: T, b: seq<T>, w: T)
    ensures Distance(a + [v], b + [w])
         == Min(Min(Distance(a, b + [w]) + 1, Distance(a + [v], b) + 1), Distance(a, b) + if v == w then 0 else 1)
  {
    var x, y := a + [v], b + [w];
    assert x[..|x| - 1] == a && y[..|y| - 1] == b;
  }

  lemma DistanceOfPrefixes<T>(a: seq<T>, b: seq<T>, i: nat, j: nat)
    requires 1 <= i <= |a| && 1 <= j <= |b|
    ensures Distance(a[..i], b[..j])
         == Min(Min(Distance(a[..i - 1], b[..j]) + 1, Distance(a[..i], b[..j - 1]) + 1),
                Distance(a[..i - 1], b[..j - 1]) + if a[i - 1] == b[j - 1] then 0 else 1)
  {
    assert a[..i - 1] + [a[i - 1]] == a[..i];
    assert b[..j - 1] + [b[j - 1]] == b[..j];
    DistanceSnoc(a[..i - 1], a[i - 1], b[..j - 1], b[j - 1]);
  }
}
