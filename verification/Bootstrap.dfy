/** The bootstrap peers: an in-place shuffle and the counted loop over its result. */
module Bootstrap {

  const BOOTSTRAP_CONNECTIONS := 4

  // ---------------------------------------------------------------------------
  // The shuffle
  // ---------------------------------------------------------------------------

  /** One random choice per round: `rand.Intn(i + 1)` in round `i`. */
  predicate Choices(js: seq<nat>) {
    forall i :: 0 <= i < |js| ==> js[i] <= i
  }

  function Swap<T>(s: seq<T>, i: nat, j: nat): seq<T>
    requires i < |s| && j < |s|
  {
    s[i := s[j]][j := s[i]]
  }

  /** The order that the choices `js` give: the last element goes to its place after all others. */
  function Shuffled<T>(s: seq<T>, js: seq<nat>): (r: seq<T>)
    requires |js| == |s| && Choices(js)
    ensures |r| == |s|
  {
    if s == [] then []
    else
      var n := |s| - 1;
      Swap(Shuffled(s[..n], js[..n]) + [s[n]], n, js[n])
  }

  /** Round `i` of the loop, which leaves the rest of the sequence alone. */
  lemma ShuffledStep<T>(s: seq<T>, js: seq<nat>, i: nat)
    requires |js| == |s| && Choices(js) && i < |s|
    ensures Swap(Shuffled(s[..i], js[..i]) + s[i..], i, js[i]) == Shuffled(s[..i + 1], js[..i + 1]) + s[i + 1..]
  {
    var before := Shuffled(s[..i], js[..i]);
    assert s[..i + 1][..i] == s[..i] && js[..i + 1][..i] == js[..i];
    assert Shuffled(s[..i + 1], js[..i + 1]) == Swap(before + [s[i]], i, js[i]);
    assert before + s[i..] == before + [s[i]] + s[i + 1..];
  }

  method Shuffle<T>(peers: array<T>, js: seq<nat>)
    requires |js| == peers.Length && Choices(js)
    modifies peers
    ensures peers[..] == Shuffled(old(peers[..]), js)
  {
    ghost var was := peers[..];
    hide Shuffled;
    for i := 0 to peers.Length
      invariant peers[..] == Shuffled(was[..i], js[..i]) + was[i..]
    {
      var j := js[i];
      ghost var before := peers[..];
      peers[i], peers[j] := peers[j], peers[i];
      assert peers[..] == Swap(before, i, j);
      ShuffledStep(was, js, i);
    }
    assert was[..peers.Length] == was && js[..peers.Length] == js && was[peers.Length..] == [];
  }

  lemma SwapPermutes<T>(s: seq<T>, i: nat, j: nat)
    requires i < |s| && j < |s|
    ensures |Swap(s, i, j)| == |s| && Swap(s, i, j)[i] == s[j]
    ensures multiset(Swap(s, i, j)) == multiset(s)
  {
  }

  /** Every choice sequence permutes. */
  lemma {:induction false} ShufflePermutes<T>(s: seq<T>, js: seq<nat>)
    requires |js| == |s| && Choices(js)
    ensures multiset(Shuffled(s, js)) == multiset(s)
  {
    hide Swap;
    if s != [] {
      var n := |s| - 1;
      ShufflePermutes(s[..n], js[..n]);
      SwapPermutes(Shuffled(s[..n], js[..n]) + [s[n]], n, js[n]);
      assert s == s[..n] + [s[n]];
    }
  }

  predicate Distinct<T(==)>(s: seq<T>) {
    forall i, j :: 0 <= i < j < |s| ==> s[i] != s[j]
  }

  function IndexOf<T(==)>(s: seq<T>, x: T): (k: nat)
    requires x in s
    ensures k < |s| && s[k] == x
  {
    var n := |s| - 1;
    if s[n] == x then n else IndexOf(s[..n], x)
  }

  lemma UndoSwap<T>(r: seq<T>, n: nat, j: nat)
    requires n < |r| && j < |r|
    ensures Swap(Swap(r, n, j), n, j) == r
  {
  }

  /** The choices that lead from `s` to its permutation `r`: undo the rounds from the last. */
  function ChoicesFor<T(==)>(s: seq<T>, r: seq<T>): (js: seq<nat>)
    requires multiset(r) == multiset(s)
    ensures |js| == |s| && Choices(js)
    decreases |s|
  {
    if s == [] then []
    else
      var n := |s| - 1;
      LastIn(s, r);
      var j := IndexOf(r, s[n]);
      RestPermutes(s, r, j);
      ChoicesFor(s[..n], Swap(r, n, j)[..n]) + [j]
  }

  lemma LastIn<T>(s: seq<T>, r: seq<T>)
    requires s != [] && multiset(r) == multiset(s)
    ensures |r| == |s| && s[|s| - 1] in r
  {
    assert |multiset(r)| == |multiset(s)|;
    assert s[|s| - 1] in multiset(r);
  }

  lemma RestPermutes<T>(s: seq<T>, r: seq<T>, j: nat)
    requires s != [] && |r| == |s| && multiset(r) == multiset(s) && j < |r| && r[j] == s[|s| - 1]
    ensures multiset(Swap(r, |s| - 1, j)[..|s| - 1]) == multiset(s[..|s| - 1])
  {
    hide Swap;
    var n := |s| - 1;
    SwapPermutes(r, n, j);
    var u := Swap(r, n, j);
    assert u == u[..n] + [u[n]] && s == s[..n] + [s[n]];
    assert multiset(u[..n]) == multiset(u) - multiset{u[n]};
    assert multiset(s[..n]) == multiset(s) - multiset{s[n]};
  }

  /** Onto: every permutation comes from some choices. */
  lemma {:induction false} ShuffleOnto<T>(s: seq<T>, r: seq<T>)
    requires multiset(r) == multiset(s)
    ensures Shuffled(s, ChoicesFor(s, r)) == r
    decreases |s|
  {
    if s == [] {
      assert |multiset(r)| == 0;
    } else {
      var n := |s| - 1;
      LastIn(s, r);
      var j := IndexOf(r, s[n]);
      RestPermutes(s, r, j);
      var rest := Swap(r, n, j)[..n];
      ShuffleOnto(s[..n], rest);
      assert ChoicesFor(s, r)[..n] == ChoicesFor(s[..n], rest);
      assert rest + [s[n]] == Swap(r, n, j);
      UndoSwap(r, n, j);
    }
  }

  lemma SameMembers<T>(a: seq<T>, b: seq<T>, x: T)
    requires multiset(a) == multiset(b)
    ensures x in a <==> x in b
  {
    assert x in multiset(a) <==> x in multiset(b);
  }

  /** Undoing a round finds the choice and the order before. */
  lemma FoundAgain<T>(before: seq<T>, x: T, j: nat)
    requires x !in before && j <= |before|
    ensures var r := Swap(before + [x], |before|, j);
      |r| == |before| + 1 && x in r && IndexOf(r, x) == j && Swap(r, |before|, j)[..|before|] == before
  {
    var r := Swap(before + [x], |before|, j);
    assert r[j] == x && forall k :: 0 <= k < |r| && k != j ==> r[k] in before;
    UndoSwap(before + [x], |before|, j);
  }

  lemma LastIsNew<T>(s: seq<T>, before: seq<T>)
    requires s != [] && Distinct(s) && multiset(before) == multiset(s[..|s| - 1])
    ensures |before| == |s| - 1 && s[|s| - 1] !in before
  {
    assert |multiset(before)| == |multiset(s[..|s| - 1])|;
    SameMembers(before, s[..|s| - 1], s[|s| - 1]);
  }

  lemma ChoicesForStep<T>(s: seq<T>, r: seq<T>, before: seq<T>, j: nat)
    requires s != [] && multiset(r) == multiset(s) && |r| == |s|
    requires s[|s| - 1] in r && IndexOf(r, s[|s| - 1]) == j && Swap(r, |s| - 1, j)[..|s| - 1] == before
    ensures multiset(before) == multiset(s[..|s| - 1])
    ensures ChoicesFor(s, r) == ChoicesFor(s[..|s| - 1], before) + [j]
  {
    hide Swap, IndexOf;
    RestPermutes(s, r, j);
  }

  /** One-to-one: of distinct peers, the order tells the choices. */
  lemma {:induction false} ShuffleOneToOne<T>(s: seq<T>, js: seq<nat>)
    requires |js| == |s| && Choices(js) && Distinct(s)
    ensures multiset(Shuffled(s, js)) == multiset(s)
    ensures ChoicesFor(s, Shuffled(s, js)) == js
    decreases |s|
  {
    hide Choices, Distinct, Swap, IndexOf, ChoicesFor, Shuffled;
    ShufflePermutes(s, js);
    if s != [] {
      var n := |s| - 1;
      WithoutLast(s, js);
      ShuffleOneToOne(s[..n], js[..n]);
      LastIsNew(s, Shuffled(s[..n], js[..n]));
      FoundAgain(Shuffled(s[..n], js[..n]), s[n], js[n]);
      ChoicesForStep(s, Shuffled(s, js), Shuffled(s[..n], js[..n]), js[n]);
      assert js == js[..n] + [js[n]];
    }
  }

  lemma WithoutLast<T>(s: seq<T>, js: seq<nat>)
    requires s != [] && |js| == |s| && Choices(js) && Distinct(s)
    ensures var n := |s| - 1;
      && Choices(js[..n]) && Distinct(s[..n]) && js[n] <= n
      && Shuffled(s, js) == Swap(Shuffled(s[..n], js[..n]) + [s[n]], n, js[n])
  {
  }

  // ---------------------------------------------------------------------------
  // The counted loop
  // ---------------------------------------------------------------------------

  /** What the network says of the peer in some place: connected already, or the dial's result. */
  datatype Dial = Connected | Dialed(ok: bool)

  function Successes(dials: seq<Dial>): nat {
    if dials == [] then 0
    else
      var n := |dials| - 1;
      Successes(dials[..n]) + if dials[n] == Dialed(true) then 1 else 0
  }

  /** The first peer that is dialled at all. */
  function FirstDialed(dials: seq<Dial>): (r: nat)
    ensures r <= |dials| && forall k :: 0 <= k < r ==> dials[k] == Connected
    ensures r < |dials| ==> dials[r].Dialed?
  {
    if dials == [] || dials[0].Dialed? then 0 else 1 + FirstDialed(dials[1..])
  }

  /** Called for no connections, the loop ends early only if the first dial fails. */
  predicate StopsAtZero(dials: seq<Dial>) {
    FirstDialed(dials) < |dials| && dials[FirstDialed(dials)] == Dialed(false)
  }

  lemma {:induction false} SuccessesGrow(dials: seq<Dial>, k: nat)
    requires k <= |dials|
    ensures Successes(dials[..k]) <= Successes(dials)
    decreases |dials|
  {
    if k < |dials| {
      var n := |dials| - 1;
      assert dials[..n][..k] == dials[..k];
      SuccessesGrow(dials[..n], k);
    } else {
      assert dials[..k] == dials;
    }
  }

  lemma SuccessesStep(dials: seq<Dial>, k: nat)
    requires k < |dials|
    ensures Successes(dials[..k + 1]) == Successes(dials[..k]) + if dials[k] == Dialed(true) then 1 else 0
  {
    assert dials[..k + 1][..k] == dials[..k];
  }

  /** The loop over the peers, whose dials turn out as `dials`; `tried` is how many it looked at. */
  method ConnectEach(dials: seq<Dial>, toconnect: int) returns (count: nat, tried: nat)
    ensures tried <= |dials| && count == Successes(dials[..tried])
    ensures toconnect > 0 ==> count == if Successes(dials) < toconnect then Successes(dials) else toconnect
    ensures toconnect > 0 ==> forall k :: 0 <= k < tried ==> Successes(dials[..k]) < toconnect
    ensures toconnect == 0 ==> tried == if StopsAtZero(dials) then FirstDialed(dials) + 1 else |dials|
    ensures toconnect < 0 ==> tried == |dials|
  {
    count, tried := 0, 0;
    var left := toconnect;
    assert Successes(dials[..0]) == 0;
    while tried < |dials|
      invariant tried <= |dials|
      invariant count == Successes(dials[..tried]) && left == toconnect - count
      invariant toconnect > 0 ==> forall k :: 0 <= k <= tried ==> Successes(dials[..k]) < toconnect
      invariant toconnect == 0 && tried > FirstDialed(dials) ==> count > 0 && !StopsAtZero(dials)
      invariant toconnect == 0 && tried <= FirstDialed(dials) ==> count == 0
    {
      hide Successes;
      var k := tried;
      SuccessesStep(dials, k);
      tried := tried + 1;
      if dials[k] == Connected {
        continue;
      }
      if dials[k].ok {
        count := count + 1;
        left := left - 1;
      }
      if left == 0 {
        SuccessesGrow(dials, tried);
        return;
      }
    }
    assert dials[..tried] == dials;
  }

  /**
    `connectBootstrapPeers`: it makes as many new connections as asked for, or as there are to be
    had, and dials no one after the last it needed.
   */
  method ConnectBootstrapPeers<T>(pis: array<T>, js: seq<nat>, dials: seq<Dial>, toconnect: int)
    returns (count: nat, tried: nat)
    requires |js| == pis.Length == |dials| && Choices(js)
    modifies pis
    ensures pis[..] == Shuffled(old(pis[..]), js) && multiset(pis[..]) == multiset(old(pis[..]))
    ensures tried <= pis.Length && count == Successes(dials[..tried])
    ensures toconnect > 0 ==> count == if Successes(dials) < toconnect then Successes(dials) else toconnect
    ensures toconnect > 0 ==> forall k :: 0 <= k < tried ==> Successes(dials[..k]) < toconnect
  {
    ShufflePermutes(pis[..], js);
    Shuffle(pis, js);
    count, tried := ConnectEach(dials, toconnect);
  }

  /** One round of `keepBootstrapConnections`: it never connects beyond the target. */
  method KeepRound<T>(pis: array<T>, js: seq<nat>, dials: seq<Dial>, conns: nat) returns (count: nat)
    requires |js| == pis.Length == |dials| && Choices(js)
    modifies pis
    ensures multiset(pis[..]) == multiset(old(pis[..]))
    ensures conns >= BOOTSTRAP_CONNECTIONS ==> count == 0
    ensures conns < BOOTSTRAP_CONNECTIONS ==>
              conns + count ==
              if conns + Successes(dials) < BOOTSTRAP_CONNECTIONS then conns + Successes(dials)
              else BOOTSTRAP_CONNECTIONS
  {
    if conns >= BOOTSTRAP_CONNECTIONS {
      return 0;
    }
    var toconnect := BOOTSTRAP_CONNECTIONS - conns;
    var tried;
    count, tried := ConnectBootstrapPeers(pis, js, dials, toconnect);
  }
}
