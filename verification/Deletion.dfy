// Deleting an application's resources: the two passes of deleteApp, and Cleanup over all present versions.
module Deletion {
  // The key of a resource: group, kind, namespace and name.
  datatype Key = Key(group: string, kind: string, namespace: string, name: string)

  datatype DeleteResult = DeleteResult(total: nat, deleted: nat, deleteFailed: nat, resourcesPresent: bool)

  function Elements(keys: seq<Key>): set<Key> { set k | k in keys }

  // No key occurs twice.
  ghost predicate Once(keys: seq<Key>) { |keys| == |Elements(keys)| }

  lemma ElementsAppend(keys: seq<Key>, key: Key)
    ensures Elements(keys + [key]) == Elements(keys) + {key}
    ensures Once(keys) && key !in Elements(keys) ==> Once(keys + [key])
  {
    assert Elements(keys + [key]) == Elements(keys) + {key};
  }

  lemma ElementsConcat(a: seq<Key>, b: seq<Key>)
    ensures Elements(a + b) == Elements(a) + Elements(b)
    ensures Once(a) && Once(b) && Elements(a) !! Elements(b) ==> Once(a + b)
  {
    assert Elements(a + b) == Elements(a) + Elements(b);
  }

  lemma {:induction false} FewElements(keys: seq<Key>)
    ensures |Elements(keys)| <= |keys|
  {
    if keys != [] {
      var p, k := keys[..|keys| - 1], keys[|keys| - 1];
      FewElements(p);
      assert keys == p + [k];
      ElementsAppend(p, k);
    }
  }

  // Which is to say that any two positions hold different keys.
  lemma {:induction false} OnceMeansDistinct(keys: seq<Key>)
    ensures Once(keys) <==> forall i, j :: 0 <= i < j < |keys| ==> keys[i] != keys[j]
  {
    if keys != [] {
      var p, k := keys[..|keys| - 1], keys[|keys| - 1];
      assert keys == p + [k];
      ElementsAppend(p, k);
      FewElements(p);
      OnceMeansDistinct(p);
      assert k in Elements(p) ==> Elements(keys) == Elements(p);
      if k in Elements(p) {
        var i :| 0 <= i < |p| && p[i] == k;
        assert keys[i] == keys[|p|];
      }
    }
  }

  // Whether the n-th delete request fails is arbitrary.
  type Fate = nat -> bool

  // Of the requests `asked`, the first of which is the n-th of all, the successful ones in order.
  ghost function Successes(asked: seq<Key>, n: nat, fails: Fate): seq<Key> {
    if asked == [] then []
    else
      var earlier := Successes(asked[..|asked| - 1], n, fails);
      if fails(n + |asked| - 1) then earlier else earlier + [asked[|asked| - 1]]
  }

  lemma SuccessesAppend(asked: seq<Key>, key: Key, n: nat, fails: Fate)
    ensures Successes(asked + [key], n, fails) ==
            if fails(n + |asked|) then Successes(asked, n, fails) else Successes(asked, n, fails) + [key]
  {
    assert (asked + [key])[..|asked|] == asked;
  }

  lemma Joined(a: seq<Key>, b: seq<Key>, c: seq<Key>)
    ensures (a + b) + c == a + (b + c)
  {}

  lemma {:induction false} SuccessesConcat(a: seq<Key>, b: seq<Key>, n: nat, fails: Fate)
    ensures Successes(a + b, n, fails) == Successes(a, n, fails) + Successes(b, n + |a|, fails)
    decreases |b|
  {
    if b == [] {
      assert a + b == a;
    } else {
      var p, k := b[..|b| - 1], b[|b| - 1];
      assert a + b == (a + p) + [k] && b == p + [k];
      SuccessesConcat(a, p, n, fails);
      SuccessesAppend(a + p, k, n, fails);
      SuccessesAppend(p, k, n + |a|, fails);
    }
  }

  lemma {:induction false} SuccessesAsked(asked: seq<Key>, n: nat, fails: Fate)
    ensures |Successes(asked, n, fails)| <= |asked| && Elements(Successes(asked, n, fails)) <= Elements(asked)
    ensures |Successes(asked, n, fails)| == |asked| ==> Successes(asked, n, fails) == asked
  {
    if asked != [] {
      var p, k := asked[..|asked| - 1], asked[|asked| - 1];
      SuccessesAsked(p, n, fails);
      assert asked == p + [k];
      ElementsAppend(p, k);
      ElementsAppend(Successes(p, n, fails), k);
    }
  }

  // The resources that carry the application's instance label; `asked` lists the delete requests made.
  class Cluster {
    var managed: set<Key>
    const fails: Fate
    var asked: seq<Key>

    constructor (managed: set<Key>, fails: Fate)
      ensures this.managed == managed && this.fails == fails && asked == []
    {
      this.managed, this.fails, asked := managed, fails, [];
    }

    method Delete(key: Key) returns (ok: bool)
      modifies this
      ensures ok == !fails(|old(asked)|) && asked == old(asked) + [key]
      ensures managed == if ok then old(managed) - {key} else old(managed)
    {
      ok := !fails(|asked|);
      asked := asked + [key];
      if ok {
        managed := managed - {key};
      }
    }
  }

  // The requests `mine`, made after `was`, account for everything that is gone, and deleted nothing twice.
  ghost predicate Accounted(before: set<Key>, was: seq<Key>, mine: seq<Key>, fails: Fate, asked: seq<Key>,
                            managed: set<Key>) {
    var gone := Successes(mine, |was|, fails);
    asked == was + mine && Once(gone) && Elements(gone) <= before && managed == before - Elements(gone)
  }

  lemma AccountOne(before: set<Key>, was: seq<Key>, mine: seq<Key>, fails: Fate, asked: seq<Key>, managed: set<Key>,
                   key: Key)
    requires Accounted(before, was, mine, fails, asked, managed) && key in managed
    ensures Accounted(before, was, mine + [key], fails, asked + [key],
                      if fails(|asked|) then managed else managed - {key})
    ensures Failed(mine + [key], |was|, fails) == Failed(mine, |was|, fails) + (if fails(|asked|) then 1 else 0)
  {
    var gone := Successes(mine, |was|, fails);
    SuccessesAppend(mine, key, |was|, fails);
    Joined(was, mine, [key]);
    assert |was| + |mine| == |asked|;
    if fails(|asked|) {
      assert Successes(mine + [key], |was|, fails) == gone;
    } else {
      OneGone(before, gone, managed, key);
    }
  }

  lemma OneGone(before: set<Key>, gone: seq<Key>, managed: set<Key>, key: Key)
    requires Once(gone) && Elements(gone) <= before && managed == before - Elements(gone) && key in managed
    ensures Once(gone + [key]) && Elements(gone + [key]) <= before
    ensures managed - {key} == before - Elements(gone + [key])
  {
    ElementsAppend(gone, key);
    assert key !in Elements(gone);
  }

  // How many of the requests failed.
  ghost function Failed(asked: seq<Key>, n: nat, fails: Fate): int {
    |asked| - |Successes(asked, n, fails)|
  }

  // The first pass so far: the listed ones among `tried` were asked for, each that is still there as often as it is
  // rendered, and each of `tried` is counted once.
  ghost predicate FirstPass(before: set<Key>, was: seq<Key>, tried: seq<Key>, mine: seq<Key>, fails: Fate,
                            asked: seq<Key>, managed: set<Key>, deleted: int, failed: int) {
    && Accounted(before, was, mine, fails, asked, managed)
    && Elements(mine) == Elements(tried) * before && AskedAgain(tried, mine, managed)
    && failed == Failed(mine, |was|, fails) && deleted + failed == |tried|
  }

  ghost predicate AskedAgain(tried: seq<Key>, mine: seq<Key>, managed: set<Key>) {
    forall k :: k in managed ==> multiset(mine)[k] == multiset(tried)[k]
  }

  lemma AskedOn(tried: seq<Key>, mine: seq<Key>, managed: set<Key>, key: Key)
    requires AskedAgain(tried, mine, managed)
    ensures AskedAgain(tried + [key], mine + [key], managed)
    ensures key !in managed ==> AskedAgain(tried + [key], mine, managed)
  {
    assert multiset(tried + [key]) == multiset(tried) + multiset{key};
    assert multiset(mine + [key]) == multiset(mine) + multiset{key};
  }

  lemma SkipAbsent(before: set<Key>, was: seq<Key>, tried: seq<Key>, mine: seq<Key>, fails: Fate, asked: seq<Key>,
                   managed: set<Key>, deleted: int, failed: int, key: Key)
    requires FirstPass(before, was, tried, mine, fails, asked, managed, deleted, failed) && key !in managed
    ensures FirstPass(before, was, tried + [key], mine, fails, asked, managed, deleted + 1, failed)
  {
    ElementsAppend(tried, key);
    AskedOn(tried, mine, managed, key);
    SuccessesAsked(mine, |was|, fails);
    assert key in before ==> key in Elements(mine);
  }

  lemma TryPresent(before: set<Key>, was: seq<Key>, tried: seq<Key>, mine: seq<Key>, fails: Fate, asked: seq<Key>,
                   managed: set<Key>, deleted: int, failed: int, key: Key)
    requires FirstPass(before, was, tried, mine, fails, asked, managed, deleted, failed) && key in managed
    ensures if fails(|asked|)
      then FirstPass(before, was, tried + [key], mine + [key], fails, asked + [key], managed, deleted, failed + 1)
      else FirstPass(before, was, tried + [key], mine + [key], fails, asked + [key], managed - {key}, deleted + 1,
                     failed)
  {
    ElementsAppend(tried, key);
    ElementsAppend(mine, key);
    AskedOn(tried, mine, managed, key);
    AccountOne(before, was, mine, fails, asked, managed, key);
  }

  // The first pass tries every rendered resource that is still listed, again for each time it is rendered as long as
  // it is there; an absent one counts as deleted.
  method DeleteRendered(cluster: Cluster, rendered: seq<Key>)
    returns (left: set<Key>, deleted: nat, failed: nat, ghost mine: seq<Key>)
    modifies cluster
    ensures left == cluster.managed
    ensures FirstPass(old(cluster.managed), old(cluster.asked), rendered, mine, cluster.fails, cluster.asked,
                      cluster.managed, deleted, failed)
  {
    left, deleted, failed, mine := cluster.managed, 0, 0, [];
    for i := 0 to |rendered|
      invariant left == cluster.managed
      invariant FirstPass(old(cluster.managed), old(cluster.asked), rendered[..i], mine, cluster.fails, cluster.asked,
                          cluster.managed, deleted, failed)
    {
      var key := rendered[i];
      assert rendered[..i + 1] == rendered[..i] + [key];
      if key !in left {
        SkipAbsent(old(cluster.managed), old(cluster.asked), rendered[..i], mine, cluster.fails, cluster.asked,
                   cluster.managed, deleted, failed, key);
        deleted := deleted + 1;
      } else {
        TryPresent(old(cluster.managed), old(cluster.asked), rendered[..i], mine, cluster.fails, cluster.asked,
                   cluster.managed, deleted, failed, key);
        mine := mine + [key];
        var ok := cluster.Delete(key);
        if ok {
          left, deleted := left - {key}, deleted + 1;
        } else {
          failed := failed + 1;
        }
      }
    }
    assert rendered[..|rendered|] == rendered;
  }

  // The second pass so far: everything but `todo` was asked for once, and what failed is still there.
  ghost predicate SecondPass(first: set<Key>, was: seq<Key>, todo: set<Key>, mine: seq<Key>, fails: Fate,
                             asked: seq<Key>, managed: set<Key>, deleted: int, failed: int) {
    && Accounted(first, was, mine, fails, asked, managed)
    && todo <= managed && Once(mine) && Elements(mine) == first - todo
    && failed == Failed(mine, |was|, fails) == |managed - todo| && deleted + failed + |todo| == |first|
  }

  lemma TryLeft(first: set<Key>, was: seq<Key>, todo: set<Key>, mine: seq<Key>, fails: Fate, asked: seq<Key>,
                managed: set<Key>, deleted: int, failed: int, key: Key)
    requires SecondPass(first, was, todo, mine, fails, asked, managed, deleted, failed) && key in todo
    ensures if fails(|asked|)
      then SecondPass(first, was, todo - {key}, mine + [key], fails, asked + [key], managed, deleted, failed + 1)
      else SecondPass(first, was, todo - {key}, mine + [key], fails, asked + [key], managed - {key}, deleted + 1,
                      failed)
  {
    AccountOne(first, was, mine, fails, asked, managed, key);
    OneLess(first, managed, todo, key);
    NewKey(mine, key, first, todo);
  }

  lemma NothingTried(first: set<Key>, was: seq<Key>, fails: Fate)
    ensures SecondPass(first, was, first, [], fails, was, first, 0, 0)
  {
    assert first - first == {};
  }

  lemma AllTried(first: set<Key>, was: seq<Key>, mine: seq<Key>, fails: Fate, asked: seq<Key>, managed: set<Key>,
                 deleted: int, failed: int)
    requires SecondPass(first, was, {}, mine, fails, asked, managed, deleted, failed)
    ensures Elements(mine) == first && failed == |managed| && deleted + failed == |first|
  {
    assert first - {} == first && managed - {} == managed;
  }

  lemma OneLess(first: set<Key>, managed: set<Key>, todo: set<Key>, key: Key)
    requires key in todo && todo <= managed <= first
    ensures |todo - {key}| == |todo| - 1 && first - (todo - {key}) == (first - todo) + {key}
    ensures |managed - (todo - {key})| == |managed - todo| + 1
    ensures |(managed - {key}) - (todo - {key})| == |managed - todo|
  {
    assert managed - (todo - {key}) == (managed - todo) + {key};
    assert (managed - {key}) - (todo - {key}) == managed - todo;
  }

  lemma NewKey(mine: seq<Key>, key: Key, first: set<Key>, todo: set<Key>)
    requires Once(mine) && Elements(mine) == first - todo && key in todo
    ensures Once(mine + [key]) && Elements(mine + [key]) == (first - todo) + {key}
  {
    ElementsAppend(mine, key);
    assert key !in Elements(mine);
  }

  // The second pass tries everything left exactly once, in any order.
  method DeleteRest(cluster: Cluster, first: set<Key>)
    returns (left: set<Key>, deleted: nat, failed: nat, ghost mine: seq<Key>)
    requires first == cluster.managed
    modifies cluster
    ensures left == cluster.managed
    ensures Accounted(first, old(cluster.asked), mine, cluster.fails, cluster.asked, cluster.managed)
    ensures Once(mine) && Elements(mine) == first
    ensures failed == Failed(mine, |old(cluster.asked)|, cluster.fails) == |left| && deleted + failed == |first|
  {
    left, deleted, failed, mine := first, 0, 0, [];
    var todo := first;
    NothingTried(first, cluster.asked, cluster.fails);
    while todo != {}
      invariant left == cluster.managed
      invariant SecondPass(first, old(cluster.asked), todo, mine, cluster.fails, cluster.asked, cluster.managed,
                           deleted, failed)
      decreases todo
    {
      var key :| key in todo;
      TryLeft(first, old(cluster.asked), todo, mine, cluster.fails, cluster.asked, cluster.managed, deleted, failed,
              key);
      todo, mine := todo - {key}, mine + [key];
      var ok := cluster.Delete(key);
      if ok {
        left, deleted := left - {key}, deleted + 1;
      } else {
        failed := failed + 1;
      }
    }
    AllTried(first, old(cluster.asked), mine, cluster.fails, cluster.asked, cluster.managed, deleted, failed);
  }

  // One deletion of an application: every listed rendered resource is tried in `pass1`, then everything that leaves
  // is tried once in `pass2`; nothing is deleted twice. The failures counted are the requests that failed, every
  // rendered resource and every one left after the first pass is counted exactly once, and resources are reported
  // present exactly when a request of the second pass failed, that is, when some are.
  ghost predicate AppDeleted(before: set<Key>, was: seq<Key>, rendered: seq<Key>, pass1: seq<Key>, pass2: seq<Key>,
                             fails: Fate, asked: seq<Key>, managed: set<Key>, result: DeleteResult) {
    && TwoPasses(before, was, rendered, pass1, pass2, fails, asked, managed)
    && result.total == |rendered|
    && result.deleteFailed == Failed(pass1 + pass2, |was|, fails)
    && result.deleted + result.deleteFailed == result.total + |pass2|
    && (result.resourcesPresent <==> managed != {})
    && (result.resourcesPresent <==> Failed(pass2, |was| + |pass1|, fails) > 0)
  }

  ghost predicate TwoPasses(before: set<Key>, was: seq<Key>, rendered: seq<Key>, pass1: seq<Key>, pass2: seq<Key>,
                            fails: Fate, asked: seq<Key>, managed: set<Key>) {
    var first := before - Elements(Successes(pass1, |was|, fails));
    && Elements(pass1) == Elements(rendered) * before && AskedAgain(rendered, pass1, first)
    && Once(pass2) && Elements(pass2) == first
    && Accounted(before, was, pass1 + pass2, fails, asked, managed)
  }

  lemma PassesCompose(before: set<Key>, was: seq<Key>, pass1: seq<Key>, pass2: seq<Key>, fails: Fate,
                      middle: seq<Key>, first: set<Key>, asked: seq<Key>, managed: set<Key>)
    requires Accounted(before, was, pass1, fails, middle, first)
    requires Accounted(first, middle, pass2, fails, asked, managed)
    ensures Accounted(before, was, pass1 + pass2, fails, asked, managed)
    ensures Failed(pass1 + pass2, |was|, fails) == Failed(pass1, |was|, fails) + Failed(pass2, |middle|, fails)
  {
    SuccessesConcat(pass1, pass2, |was|, fails);
    ElementsConcat(Successes(pass1, |was|, fails), Successes(pass2, |middle|, fails));
    Joined(was, pass1, pass2);
  }

  method DeleteApp(cluster: Cluster, rendered: seq<Key>)
    returns (result: DeleteResult, ghost pass1: seq<Key>, ghost pass2: seq<Key>)
    modifies cluster
    ensures AppDeleted(old(cluster.managed), old(cluster.asked), rendered, pass1, pass2, cluster.fails, cluster.asked,
                       cluster.managed, result)
  {
    var first, deleted, failed;
    first, deleted, failed, pass1 := DeleteRendered(cluster, rendered);
    ghost var middle := cluster.asked;
    var left, more, moreFailed;
    left, more, moreFailed, pass2 := DeleteRest(cluster, first);
    result := DeleteResult(|rendered|, deleted + more, failed + moreFailed, |left| > 0);
    BothPasses(old(cluster.managed), old(cluster.asked), rendered, pass1, pass2, cluster.fails, middle, first,
               cluster.asked, cluster.managed, deleted, failed, more, moreFailed);
  }

  lemma BothPasses(before: set<Key>, was: seq<Key>, rendered: seq<Key>, pass1: seq<Key>, pass2: seq<Key>, fails: Fate,
                   middle: seq<Key>, first: set<Key>, asked: seq<Key>, managed: set<Key>,
                   deleted: nat, failed: nat, more: nat, moreFailed: nat)
    requires FirstPass(before, was, rendered, pass1, fails, middle, first, deleted, failed)
    requires Accounted(first, middle, pass2, fails, asked, managed) && Once(pass2) && Elements(pass2) == first
    requires moreFailed == Failed(pass2, |middle|, fails) == |managed| && more + moreFailed == |first|
    ensures AppDeleted(before, was, rendered, pass1, pass2, fails, asked, managed,
                       DeleteResult(|rendered|, deleted + more, failed + moreFailed, |managed| > 0))
  {
    PassesCompose(before, was, pass1, pass2, fails, middle, first, asked, managed);
    FirstLeaves(before, was, rendered, pass1, fails, middle, first, deleted, failed);
  }

  lemma FirstLeaves(before: set<Key>, was: seq<Key>, rendered: seq<Key>, pass1: seq<Key>, fails: Fate,
                    middle: seq<Key>, first: set<Key>, deleted: int, failed: int)
    requires FirstPass(before, was, rendered, pass1, fails, middle, first, deleted, failed)
    ensures first == before - Elements(Successes(pass1, |was|, fails)) && |middle| == |was| + |pass1|
    ensures Elements(pass1) == Elements(rendered) * before && AskedAgain(rendered, pass1, first)
    ensures failed == Failed(pass1, |was|, fails) && deleted + failed == |rendered|
  {}

  function TotalFailed(results: seq<DeleteResult>): nat {
    if results == [] then 0
    else TotalFailed(results[..|results| - 1]) + results[|results| - 1].deleteFailed
  }

  predicate AnyPresent(results: seq<DeleteResult>) {
    exists i :: 0 <= i < |results| && results[i].resourcesPresent
  }

  // The calls for `rendered` so far: nothing deleted twice over all of them, the failures reported are the failed
  // requests, and the first call already tried everything, so it alone decides whether resources are reported.
  ghost predicate Cleaned(before: set<Key>, was: seq<Key>, rendered: seq<seq<Key>>, mine: seq<Key>, fails: Fate,
                          asked: seq<Key>, managed: set<Key>, results: seq<DeleteResult>) {
    && Totals(results, rendered)
    && Accounted(before, was, mine, fails, asked, managed) && TotalFailed(results) == Failed(mine, |was|, fails)
    && (if results == [] then mine == [] else before <= Elements(mine) && FirstDecides(results, managed))
  }

  ghost predicate Totals(results: seq<DeleteResult>, rendered: seq<seq<Key>>) {
    |results| == |rendered| && forall i :: 0 <= i < |rendered| ==> results[i].total == |rendered[i]|
  }

  lemma TotalsOn(results: seq<DeleteResult>, rendered: seq<seq<Key>>, result: DeleteResult, next: seq<Key>)
    requires Totals(results, rendered) && result.total == |next|
    ensures Totals(results + [result], rendered + [next])
  {}

  ghost predicate FirstDecides(results: seq<DeleteResult>, managed: set<Key>)
    requires results != []
  {
    && (AnyPresent(results) <==> results[0].resourcesPresent)
    && (!AnyPresent(results) ==> managed == {})
    && (TotalFailed(results) == 0 ==> !AnyPresent(results))
  }

  // One DeleteApp per present version, oldest first. The listing is by instance, not by version: the undeployment
  // counts as complete exactly when the first call deleted everything, even if a later call finishes the job.
  method Cleanup(cluster: Cluster, rendered: seq<seq<Key>>) returns (results: seq<DeleteResult>, ghost mine: seq<Key>)
    modifies cluster
    ensures Cleaned(old(cluster.managed), old(cluster.asked), rendered, mine, cluster.fails, cluster.asked,
                    cluster.managed, results)
  {
    results, mine := [], [];
    ghost var done: seq<seq<Key>> := [];
    ghost var before, was := cluster.managed, cluster.asked;
    NoCallYet(before, was, cluster.fails);
    for i := 0 to |rendered|
      invariant done == rendered[..i]
      invariant Cleaned(before, was, done, mine, cluster.fails, cluster.asked, cluster.managed, results)
    {
      var result;
      result, mine := DeleteVersion(cluster, rendered[i], before, was, done, mine, results);
      results, done := results + [result], done + [rendered[i]];
    }
    assert done == rendered;
  }

  // One call among them.
  method DeleteVersion(cluster: Cluster, next: seq<Key>, ghost before: set<Key>, ghost was: seq<Key>,
                       ghost done: seq<seq<Key>>, ghost mine: seq<Key>, ghost results: seq<DeleteResult>)
    returns (result: DeleteResult, ghost all: seq<Key>)
    requires Cleaned(before, was, done, mine, cluster.fails, cluster.asked, cluster.managed, results)
    modifies cluster
    ensures Cleaned(before, was, done + [next], all, cluster.fails, cluster.asked, cluster.managed, results + [result])
  {
    ghost var middle, first := cluster.asked, cluster.managed;
    var deleted, pass1, pass2 := DeleteApp(cluster, next);
    CallFacts(first, middle, next, pass1, pass2, cluster.fails, cluster.asked, cluster.managed, deleted);
    OneMoreCall(before, was, done, mine, cluster.fails, middle, first, results, next, pass1 + pass2, cluster.asked,
                cluster.managed, deleted);
    result, all := deleted, mine + (pass1 + pass2);
  }

  lemma NoCallYet(managed: set<Key>, asked: seq<Key>, fails: Fate)
    ensures Cleaned(managed, asked, [], [], fails, asked, managed, [])
  {}

  lemma OneMoreCall(before: set<Key>, was: seq<Key>, rendered: seq<seq<Key>>, mine: seq<Key>, fails: Fate,
                    middle: seq<Key>, first: set<Key>, results: seq<DeleteResult>, next: seq<Key>, call: seq<Key>,
                    asked: seq<Key>, managed: set<Key>, result: DeleteResult)
    requires Cleaned(before, was, rendered, mine, fails, middle, first, results)
    requires Contributed(first, middle, next, call, fails, asked, managed, result)
    ensures Cleaned(before, was, rendered + [next], mine + call, fails, asked, managed, results + [result])
  {
    CallCompose(before, was, mine, fails, middle, first, call, asked, managed);
    OneMoreResult(results, result);
    TotalsOn(results, rendered, result, next);
    DecidesOn(results, first, result, managed);
    AllAsked(before, mine, first, call, results, |was|, fails);
  }

  lemma AllAsked(before: set<Key>, mine: seq<Key>, first: set<Key>, call: seq<Key>, results: seq<DeleteResult>, n: nat,
                 fails: Fate)
    requires first == before - Elements(Successes(mine, n, fails)) && first <= Elements(call)
    requires if results == [] then mine == [] else before <= Elements(mine)
    ensures before <= Elements(mine) + Elements(call)
  {}

  lemma DecidesOn(results: seq<DeleteResult>, first: set<Key>, result: DeleteResult, managed: set<Key>)
    requires results != [] ==> FirstDecides(results, first)
    requires result.resourcesPresent ==> result.deleteFailed > 0
    requires managed <= first && (result.resourcesPresent <==> managed != {})
    ensures FirstDecides(results + [result], managed)
  {
    OneMoreResult(results, result);
    assert results != [] ==> (results + [result])[0] == results[0];
  }

  lemma OneMoreResult(results: seq<DeleteResult>, result: DeleteResult)
    ensures TotalFailed(results + [result]) == TotalFailed(results) + result.deleteFailed
    ensures AnyPresent(results + [result]) <==> AnyPresent(results) || result.resourcesPresent
  {
    var all := results + [result];
    assert all[..|results|] == results && all[|results|] == result;
    assert forall i :: 0 <= i < |results| ==> all[i] == results[i];
  }

  ghost predicate Contributed(first: set<Key>, was: seq<Key>, rendered: seq<Key>, call: seq<Key>, fails: Fate,
                              asked: seq<Key>, managed: set<Key>, result: DeleteResult) {
    && Accounted(first, was, call, fails, asked, managed) && first <= Elements(call)
    && (result.resourcesPresent ==> Failed(call, |was|, fails) > 0) && (result.resourcesPresent <==> managed != {})
    && result.deleteFailed == Failed(call, |was|, fails) && result.total == |rendered|
  }

  // What one call contributes: everything listed is asked for, and resources left mean a failed request.
  lemma CallFacts(first: set<Key>, was: seq<Key>, rendered: seq<Key>, pass1: seq<Key>, pass2: seq<Key>, fails: Fate,
                  asked: seq<Key>, managed: set<Key>, result: DeleteResult)
    requires AppDeleted(first, was, rendered, pass1, pass2, fails, asked, managed, result)
    ensures Contributed(first, was, rendered, pass1 + pass2, fails, asked, managed, result)
  {
    FailuresSplit(pass1, pass2, |was|, fails);
    EverythingAsked(first, pass1, pass2, |was|, fails);
  }

  lemma CallCompose(before: set<Key>, was: seq<Key>, mine: seq<Key>, fails: Fate, middle: seq<Key>, first: set<Key>,
                    call: seq<Key>, asked: seq<Key>, managed: set<Key>)
    requires Accounted(before, was, mine, fails, middle, first) && Accounted(first, middle, call, fails, asked, managed)
    ensures Accounted(before, was, mine + call, fails, asked, managed)
    ensures Failed(mine + call, |was|, fails) == Failed(mine, |was|, fails) + Failed(call, |middle|, fails)
    ensures Failed(mine, |was|, fails) >= 0 && Failed(call, |middle|, fails) >= 0
    ensures Elements(mine + call) == Elements(mine) + Elements(call)
  {
    PassesCompose(before, was, mine, call, fails, middle, first, asked, managed);
    SuccessesAsked(mine, |was|, fails);
    SuccessesAsked(call, |middle|, fails);
    ElementsConcat(mine, call);
  }

  lemma FailuresSplit(pass1: seq<Key>, pass2: seq<Key>, n: nat, fails: Fate)
    ensures Failed(pass2, n + |pass1|, fails) <= Failed(pass1 + pass2, n, fails)
  {
    SuccessesConcat(pass1, pass2, n, fails);
    SuccessesAsked(pass1, n, fails);
  }

  // What the first pass deletes it asked for; the rest the second pass asks for.
  lemma EverythingAsked(first: set<Key>, pass1: seq<Key>, pass2: seq<Key>, n: nat, fails: Fate)
    requires Elements(pass2) == first - Elements(Successes(pass1, n, fails))
    ensures first <= Elements(pass1 + pass2)
  {
    SuccessesAsked(pass1, n, fails);
    ElementsConcat(pass1, pass2);
  }
}
