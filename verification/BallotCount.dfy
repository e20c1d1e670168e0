/** Counting the ballots of an election: which accounts win, in which order, and that the outcome does
    not depend on the order in which ballots are counted. */
module BallotCount {

  type Key = string

  /** The order of strings: character by character, a prefix first. */
  predicate Less(a: Key, b: Key) {
    if b == [] then false
    else if a == [] then true
    else if a[0] == b[0] then Less(a[1..], b[1..])
    else a[0] < b[0]
  }

  lemma {:induction false} LessTotal(a: Key, b: Key)
    ensures !(Less(a, b) && Less(b, a))
    ensures Less(a, b) || Less(b, a) || a == b
    ensures !Less(a, a)
  {
    if a != [] {
      LessTotal(a[1..], a[1..]);
    }
    if a != [] && b != [] && a[0] == b[0] {
      LessTotal(a[1..], b[1..]);
      assert a == [a[0]] + a[1..] && b == [b[0]] + b[1..];
    }
  }

  lemma {:induction false} LessTransitive(a: Key, b: Key, c: Key)
    requires Less(a, b) && Less(b, c)
    ensures Less(a, c)
  {
    if a != [] && a[0] == b[0] == c[0] {
      LessTransitive(a[1..], b[1..], c[1..]);
    }
  }

  // ---- the outcome ----

  /** How often each key was voted for, over all ballots. */
  function Votes(ballots: seq<seq<Key>>): (votes: multiset<Key>) {
    if ballots == [] then multiset{}
    else Votes(ballots[..|ballots| - 1]) + multiset(ballots[|ballots| - 1])
  }

  /** More votes win, and between equals the smaller key. */
  predicate Beats(v: multiset<Key>, a: Key, b: Key) {
    v[a] > v[b] || (v[a] == v[b] && Less(a, b))
  }

  function Keys(v: multiset<Key>): set<Key> {
    set k | k in v
  }

  /** A list of winners: in order, and everybody else is beaten by all of them. */
  predicate Ranking(v: multiset<Key>, r: seq<Key>) {
    && (forall i | 0 <= i < |r| :: r[i] in v)
    && (forall i, j | 0 <= i < j < |r| :: Beats(v, r[i], r[j]))
    && (forall i, k | 0 <= i < |r| && k in Keys(v) && k !in r :: Beats(v, r[i], k))
  }

  /** `amount` winners, or everybody when there are fewer, and then empty keys. */
  predicate Outcome(v: multiset<Key>, amount: nat, r: seq<Key>) {
    var n := if |Keys(v)| < amount then |Keys(v)| else amount;
    && |r| == amount
    && Ranking(v, r[..n])
    && forall i | n <= i < amount :: r[i] == ""
  }

  lemma BeatsOneWay(v: multiset<Key>, a: Key, b: Key)
    ensures !(Beats(v, a, b) && Beats(v, b, a))
  {
    LessTotal(a, b);
  }

  lemma NotBefore(v: multiset<Key>, r: seq<Key>, n: nat)
    requires Ranking(v, r) && n < |r|
    ensures r[n] !in r[..n]
  {
    BeatsOneWay(v, r[n], r[n]);
  }

  lemma BeatsTheRest(v: multiset<Key>, r: seq<Key>, n: nat, k: Key)
    requires Ranking(v, r) && n < |r| && k in v && k !in r[..n] && k != r[n]
    ensures Beats(v, r[n], k)
  {
    if k in r {
      var j :| 0 <= j < |r| && r[j] == k;
      assert forall i | 0 <= i < n :: r[i] in r[..n];
    }
  }

  lemma {:induction false} SameRanking(v: multiset<Key>, r: seq<Key>, s: seq<Key>, n: nat)
    requires Ranking(v, r) && Ranking(v, s) && n <= |r| == |s|
    ensures r[..n] == s[..n]
  {
    if n > 0 {
      SameRanking(v, r, s, n - 1);
      var a, b := r[n - 1], s[n - 1];
      BeatsOneWay(v, a, b);
      NotBefore(v, r, n - 1);
      NotBefore(v, s, n - 1);
      if a != b {
        BeatsTheRest(v, r, n - 1, b);
        BeatsTheRest(v, s, n - 1, a);
        assert false;
      }
      assert r[..n] == r[..n - 1] + [a] && s[..n] == s[..n - 1] + [b];
    }
  }

  /** The votes decide the outcome. */
  lemma OutcomeIsUnique(v: multiset<Key>, amount: nat, r: seq<Key>, s: seq<Key>)
    requires Outcome(v, amount, r) && Outcome(v, amount, s)
    ensures r == s
  {
    var n := if |Keys(v)| < amount then |Keys(v)| else amount;
    SameRanking(v, r[..n], s[..n], n);
    assert r[..n][..n] == r[..n] && s[..n][..n] == s[..n];
    forall i | 0 <= i < amount
      ensures r[i] == s[i]
    {
      if i < n {
        assert r[..n][i] == r[i] && s[..n][i] == s[i];
      }
    }
  }

  lemma {:induction false} VotesRemove(ballots: seq<seq<Key>>, i: nat)
    requires i < |ballots|
    ensures Votes(ballots) == Votes(ballots[..i] + ballots[i + 1..]) + multiset(ballots[i])
  {
    var last := |ballots| - 1;
    var without := ballots[..i] + ballots[i + 1..];
    if i == last {
      assert without == ballots[..last];
    } else {
      var p := ballots[..last];
      VotesRemove(p, i);
      assert without[..last - 1] == p[..i] + p[i + 1..] && without[last - 1] == ballots[last];
    }
  }

  lemma WithoutOne(b: seq<seq<Key>>, i: nat)
    requires i < |b|
    ensures multiset(b[..i] + b[i + 1..]) == multiset(b) - multiset{b[i]}
  {
    assert b == b[..i] + [b[i]] + b[i + 1..];
  }

  /** Counting the ballots in another order gives the same votes. */
  lemma {:induction false} VotesPermute(a: seq<seq<Key>>, b: seq<seq<Key>>)
    requires multiset(a) == multiset(b)
    ensures Votes(a) == Votes(b)
    decreases |a|
  {
    hide Votes;
    if a == [] {
      assert |multiset(b)| == |b|;
      assert b == a;
    } else {
      var last := |a| - 1;
      var x := a[last];
      assert x in multiset(b);
      var i :| 0 <= i < |b| && b[i] == x;
      VotesRemove(b, i);
      var rest := b[..i] + b[i + 1..];
      WithoutOne(b, i);
      WithoutOne(a, last);
      VotesRemove(a, last);
      assert a[..last] + a[last + 1..] == a[..last];
      VotesPermute(a[..last], rest);
    }
  }

  /** The outcome does not depend on the order of the ballots. */
  lemma OrderDoesNotMatter(a: seq<seq<Key>>, b: seq<seq<Key>>, amount: nat, r: seq<Key>, s: seq<Key>)
    requires multiset(a) == multiset(b)
    requires Outcome(Votes(a), amount, r) && Outcome(Votes(b), amount, s)
    ensures r == s
  {
    VotesPermute(a, b);
    OutcomeIsUnique(Votes(a), amount, r, s);
  }

  /** With enough accounts voted for, all winners are different accounts that got votes, the one before
      has at least as many as the one after, and no one left out has more than the last winner. */
  lemma OutcomeMeans(v: multiset<Key>, amount: nat, r: seq<Key>)
    requires Outcome(v, amount, r) && |Keys(v)| >= amount
    ensures |r| == amount && forall i | 0 <= i < |r| :: r[i] in v
    ensures forall i, j | 0 <= i < j < |r| :: r[i] != r[j] && v[r[i]] >= v[r[j]]
    ensures forall i, k | 0 <= i < |r| && k !in r :: v[k] <= v[r[i]]
  {
    assert r[..amount] == r;
    forall k {:trigger Less(k, k)}
      ensures !Beats(v, k, k)
    {
      LessTotal(k, k);
    }
    forall i, j | 0 <= i < j < |r|
      ensures r[i] != r[j] && v[r[i]] >= v[r[j]]
    {
      assert Beats(v, r[i], r[j]);
      LessTotal(r[i], r[j]);
    }
    forall i, k | 0 <= i < |r| && k !in r
      ensures v[k] <= v[r[i]]
    {
      assert k in v ==> k in Keys(v);
    }
  }

  // ---- the count ----

  predicate Sorted(keys: seq<Key>) {
    forall i, j | 0 <= i < j < |keys| :: Less(keys[i], keys[j])
  }

  lemma InsertSorted(keys: seq<Key>, i: nat, key: Key)
    requires Sorted(keys) && i <= |keys| && key !in keys
    requires forall j | 0 <= j < i :: Less(keys[j], key)
    requires i < |keys| ==> !Less(keys[i], key)
    ensures Sorted(keys[..i] + [key] + keys[i..])
    ensures (set k | k in keys[..i] + [key] + keys[i..]) == (set k | k in keys) + {key}
  {
    hide Less;
    forall j | i <= j < |keys|
      ensures Less(key, keys[j])
    {
      LessTotal(keys[i], key);
      if j > i {
        LessTransitive(key, keys[i], keys[j]);
      }
    }
    assert keys == keys[..i] + keys[i..];
  }

  /** An ordered map from keys to counts. */
  class RankList {
    var keys: seq<Key>
    var count: map<Key, nat>

    predicate Valid()
      reads this
    {
      Sorted(keys) && (set k | k in keys) == count.Keys
    }

    constructor ()
      ensures Valid() && keys == [] && count == map[]
    {
      keys, count := [], map[];
    }

    /** A new key goes to its place in the order. */
    method Set(key: Key, n: nat)
      requires Valid()
      modifies this
      ensures Valid() && count == old(count)[key := n]
    {
      if key !in count {
        hide Sorted, Less;
        assert key !in keys by {
          assert key in keys ==> key in set k | k in keys;
        }
        var i := 0;
        while i < |keys| && Less(keys[i], key)
          invariant 0 <= i <= |keys|
          invariant forall j | 0 <= j < i :: Less(keys[j], key)
        {
          i := i + 1;
        }
        InsertSorted(keys, i, key);
        keys := keys[..i] + [key] + keys[i..];
      }
      count := count[key := n];
    }
  }

  /** What is left to rank when the keys of `done` have been taken. */
  ghost predicate Remaining(v: multiset<Key>, done: seq<Key>, count: map<Key, nat>) {
    forall k | k in count :: count[k] == if k in done then 0 else v[k]
  }

  /** A key gets one more vote. */
  lemma OneMore(v: multiset<Key>, count: map<Key, nat>, key: Key)
    requires count.Keys == Keys(v) && Remaining(v, [], count)
    ensures var after := count[key := if key in count then count[key] + 1 else 1];
            after.Keys == Keys(v + multiset{key}) && Remaining(v + multiset{key}, [], after)
  {
    assert key !in count ==> key !in Keys(v);
  }

  method CountBallot(ghost before: multiset<Key>, voteList: seq<Key>, list: RankList)
    requires list.Valid() && list.count.Keys == Keys(before) && Remaining(before, [], list.count)
    modifies list
    ensures list.Valid()
    ensures list.count.Keys == Keys(before + multiset(voteList)) && Remaining(before + multiset(voteList), [], list.count)
  {
    hide Remaining, Keys, Sorted;
    var j := 0;
    ghost var v := before;
    while j < |voteList|
      invariant 0 <= j <= |voteList| && list.Valid()
      invariant v == before + multiset(voteList[..j])
      invariant list.count.Keys == Keys(v) && Remaining(v, [], list.count)
    {
      var key := voteList[j];
      OneMore(v, list.count, key);
      if key !in list.count {
        list.Set(key, 1);
      } else {
        list.Set(key, list.count[key] + 1);
      }
      v := v + multiset{key};
      assert voteList[..j + 1] == voteList[..j] + [key];
      j := j + 1;
    }
    assert voteList[..|voteList|] == voteList;
  }

  method CountVotes(ballots: seq<seq<Key>>) returns (list: RankList)
    ensures fresh(list) && list.Valid()
    ensures list.count.Keys == Keys(Votes(ballots)) && Remaining(Votes(ballots), [], list.count)
  {
    list := new RankList();
    assert Keys(Votes([])) == {};
    hide Remaining, Keys, Sorted;
    var i := 0;
    while i < |ballots|
      invariant 0 <= i <= |ballots| && list.Valid() && fresh(list)
      invariant list.count.Keys == Keys(Votes(ballots[..i])) && Remaining(Votes(ballots[..i]), [], list.count)
    {
      CountBallot(Votes(ballots[..i]), ballots[i], list);
      assert ballots[..i + 1][..i] == ballots[..i];
      i := i + 1;
    }
    assert ballots[..|ballots|] == ballots;
  }

  // ---- the selection ----

  /** The winners taken so far, in order, and all others beaten by them. */
  ghost predicate Taken(v: multiset<Key>, done: seq<Key>, count: map<Key, nat>) {
    && Ranking(v, done)
    && Remaining(v, done, count)
    && Keys(v) <= count.Keys
  }

  /** The first key with the most votes left. */
  method FindMax(list: RankList) returns (max: nat, key: Key)
    requires list.Valid()
    ensures max == 0 ==> key == "" && forall k | k in list.count :: list.count[k] == 0
    ensures max > 0 ==> key in list.count && list.count[key] == max
    ensures max > 0 ==> forall k | k in list.count && k != key ::
              list.count[k] < max || (list.count[k] == max && Less(key, k))
  {
    max := 0;
    key := "";
    var j := 0;
    assert forall k | k in list.keys :: k in list.count;
    while j < |list.keys|
      invariant 0 <= j <= |list.keys|
      invariant max == 0 ==> key == "" && forall i | 0 <= i < j :: list.count[list.keys[i]] == 0
      invariant max > 0 ==> key in list.count && list.count[key] == max && key in list.keys[..j]
      invariant max > 0 ==> forall i | 0 <= i < j && list.keys[i] != key ::
                  list.count[list.keys[i]] < max || (list.count[list.keys[i]] == max && Less(key, list.keys[i]))
    {
      var k := list.keys[j];
      if list.count[k] > max {
        max := list.count[k];
        key := k;
      }
      j := j + 1;
    }
    assert forall k | k in list.count :: k in list.keys;
  }

  lemma TakeNext(v: multiset<Key>, done: seq<Key>, count: map<Key, nat>, max: nat, key: Key)
    requires Taken(v, done, count) && max > 0 && key in count && count[key] == max
    requires forall k | k in count && k != key :: count[k] < max || (count[k] == max && Less(key, k))
    ensures Taken(v, done + [key], count[key := 0]) && key in v && key !in done
  {
    var r := done + [key];
    forall i, k | 0 <= i < |r| && k in Keys(v) && k !in r
      ensures Beats(v, r[i], k)
    {
      assert k in count && k !in done;
    }
  }

  lemma NothingLeft(v: multiset<Key>, done: seq<Key>, count: map<Key, nat>)
    requires Taken(v, done, count) && forall k | k in count :: count[k] == 0
    ensures |done| == |Keys(v)| && Taken(v, done, count["" := 0])
  {
    assert forall k | k in Keys(v) :: k in done by {
      forall k | k in Keys(v)
        ensures k in done
      {
        assert k in count;
      }
    }
    RankingIsDistinct(v, done);
    SetOfDistinct(done);
    assert (set k | k in done) == Keys(v);
  }

  lemma RankingIsDistinct(v: multiset<Key>, r: seq<Key>)
    requires Ranking(v, r)
    ensures forall i, j | 0 <= i < j < |r| :: r[i] != r[j]
  {
    forall i, j | 0 <= i < j < |r|
      ensures r[i] != r[j]
    {
      BeatsOneWay(v, r[i], r[j]);
    }
  }

  lemma {:induction false} SetOfDistinct(r: seq<Key>)
    requires forall i, j | 0 <= i < j < |r| :: r[i] != r[j]
    ensures |set k | k in r| == |r|
  {
    if r != [] {
      var p := r[..|r| - 1];
      SetOfDistinct(p);
      assert (set k | k in r) == (set k | k in p) + {r[|r| - 1]};
      assert r[|r| - 1] !in p;
    }
  }

  lemma AtMostAll(v: multiset<Key>, done: seq<Key>, count: map<Key, nat>)
    requires Taken(v, done, count)
    ensures |done| <= |Keys(v)|
  {
    RankingIsDistinct(v, done);
    SetOfDistinct(done);
    SubsetSize((set k | k in done), Keys(v));
  }

  lemma {:induction false} SubsetSize(a: set<Key>, b: set<Key>)
    requires a <= b
    ensures |a| <= |b|
    decreases |a|
  {
    if a != {} {
      var k :| k in a;
      SubsetSize(a - {k}, b - {k});
    }
  }

  /** The winners so far, followed by empty keys once everybody has been taken. */
  ghost predicate Picked(v: multiset<Key>, done: seq<Key>, count: map<Key, nat>, result: seq<Key>) {
    && Taken(v, done, count) && |done| <= |Keys(v)| && |done| <= |result|
    && result == Padded(done, |result|)
    && (|done| < |result| ==> |done| == |Keys(v)|)
  }

  lemma PickNext(v: multiset<Key>, done: seq<Key>, count: map<Key, nat>, result: seq<Key>, max: nat, key: Key)
    requires Picked(v, done, count, result) && max > 0 && key in count && count[key] == max
    requires forall k | k in count && k != key :: count[k] < max || (count[k] == max && Less(key, k))
    ensures Picked(v, done + [key], count[key := 0], result + [key])
  {
    TakeNext(v, done, count, max, key);
    AtMostAll(v, done + [key], count[key := 0]);
    hide Taken, Keys;
    assert |done| == |result|;
    assert Padded(done, |result|) == done;
    assert Padded(done + [key], |result| + 1) == done + [key];
  }

  lemma PickNobody(v: multiset<Key>, done: seq<Key>, count: map<Key, nat>, result: seq<Key>)
    requires Picked(v, done, count, result) && forall k | k in count :: count[k] == 0
    ensures Picked(v, done, count["" := 0], result + [""])
  {
    NothingLeft(v, done, count);
    hide Taken, Keys;
    assert Padded(done, |result|) + [""] == Padded(done, |result| + 1);
  }

  /** The winners by rank; the votes of a winner are set to zero before the next one is looked for. */
  method BallotStatistic(ballots: seq<seq<Key>>, amount: nat) returns (result: seq<Key>)
    ensures Outcome(Votes(ballots), amount, result)
  {
    var list := CountVotes(ballots);
    ghost var v := Votes(ballots);
    ghost var done: seq<Key> := [];
    result := [];
    assert Picked(v, done, list.count, result);
    hide Picked, Remaining, Keys, Sorted, Votes, Less, Outcome;
    var i := 0;
    while i < amount
      invariant 0 <= i <= amount && list.Valid() && |result| == i
      invariant Picked(v, done, list.count, result)
    {
      var max, key := FindMax(list);
      if max == 0 {
        PickNobody(v, done, list.count, result);
      } else {
        PickNext(v, done, list.count, result, max, key);
        done := done + [key];
      }
      result := result + [key];
      list.Set(key, 0);
      i := i + 1;
    }
    PickedAll(v, done, list.count, result);
  }

  function Padded(done: seq<Key>, n: nat): seq<Key>
    requires |done| <= n
  {
    done + seq(n - |done|, _ => "")
  }

  lemma PickedAll(v: multiset<Key>, done: seq<Key>, count: map<Key, nat>, result: seq<Key>)
    requires Picked(v, done, count, result)
    ensures Outcome(v, |result|, result)
  {
    assert result[..|done|] == done;
  }
}
