/** What a flight holds: the log of its acquisitions and releases, replayed
    onto the set of resource kinds it holds. Each kind is one unit of one
    arbiter (a runway, a gate, a tower slot). */
module Bookkeeping {

  datatype Resource = Runway | Gate | Tower

  /** One unit taken from, or given back to, the arbiter of a resource kind. */
  datatype Event = Take(resource: Resource) | Give(resource: Resource)

  predicate Distinct(rs: seq<Resource>)
  {
    forall i, j :: 0 <= i < j < |rs| ==> rs[i] != rs[j]
  }

  function Members(rs: seq<Resource>): set<Resource>
  {
    set r | r in rs
  }

  function Apply(held: set<Resource>, e: Event): set<Resource>
  {
    match e
    case Take(r) => held + {r}
    case Give(r) => held - {r}
  }

  /** A take is allowed only of a kind not already held (a flight never holds
      two units of one kind), a give only of a kind that is held. */
  predicate Allowed(held: set<Resource>, e: Event)
  {
    match e
    case Take(r) => r !in held
    case Give(r) => r in held
  }

  /** The kinds held after replaying `log` from `held`. */
  function After(held: set<Resource>, log: seq<Event>): set<Resource>
    decreases |log|
  {
    if log == [] then held else After(Apply(held, log[0]), log[1..])
  }

  /** Every event of `log`, replayed from `held`, is allowed. */
  predicate Legal(held: set<Resource>, log: seq<Event>)
    decreases |log|
  {
    log == [] || (Allowed(held, log[0]) && Legal(Apply(held, log[0]), log[1..]))
  }

  /** Units of `r` taken minus units of `r` given back. */
  function Net(log: seq<Event>, r: Resource): int
    decreases |log|
  {
    if log == [] then 0
    else (match log[0]
          case Take(x) => if x == r then 1 else 0
          case Give(x) => if x == r then -1 else 0) + Net(log[1..], r)
  }

  /** Taking each kind of `rs`, in order. */
  function Takes(rs: seq<Resource>): (log: seq<Event>)
    ensures |log| == |rs|
    ensures forall i :: 0 <= i < |rs| ==> log[i] == Take(rs[i])
  {
    if rs == [] then [] else [Take(rs[0])] + Takes(rs[1..])
  }

  /** Giving back each kind of `rs`, in order. */
  function Gives(rs: seq<Resource>): (log: seq<Event>)
    ensures |log| == |rs|
    ensures forall i :: 0 <= i < |rs| ==> log[i] == Give(rs[i])
  {
    if rs == [] then [] else [Give(rs[0])] + Gives(rs[1..])
  }

  /** Replaying a concatenation is replaying its halves one after the other. */
  lemma {:induction false} AfterAppend(held: set<Resource>, a: seq<Event>, b: seq<Event>)
    ensures After(held, a + b) == After(After(held, a), b)
    ensures Legal(held, a + b) <==> Legal(held, a) && Legal(After(held, a), b)
    decreases |a|
  {
    if a == [] {
      assert a + b == b;
    } else {
      assert (a + b)[0] == a[0];
      assert (a + b)[1..] == a[1..] + b;
      AfterAppend(Apply(held, a[0]), a[1..], b);
    }
  }

  /** Counter balance: along a legal log, the units of `r` taken minus those
      given back equal the change in whether `r` is held, so a log that ends
      holding what it started with gives back every unit it takes. */
  lemma {:induction false} NetTracksHolding(held: set<Resource>, log: seq<Event>, r: Resource)
    requires Legal(held, log)
    ensures (if r in After(held, log) then 1 else 0) == (if r in held then 1 else 0) + Net(log, r)
    decreases |log|
  {
    if log != [] {
      NetTracksHolding(Apply(held, log[0]), log[1..], r);
    }
  }

  /** Taking distinct kinds, none of them held, is legal and adds exactly
      those kinds. */
  lemma {:induction false} TakesAll(held: set<Resource>, rs: seq<Resource>)
    requires Distinct(rs)
    requires forall i :: 0 <= i < |rs| ==> rs[i] !in held
    ensures Legal(held, Takes(rs))
    ensures After(held, Takes(rs)) == held + Members(rs)
    decreases |rs|
  {
    if rs != [] {
      var log := Takes(rs);
      assert log[0] == Take(rs[0]);
      assert log[1..] == Takes(rs[1..]);
      TakesAll(held + {rs[0]}, rs[1..]);
      assert Members(rs) == {rs[0]} + Members(rs[1..]) by {
        forall r ensures r in Members(rs) <==> r in {rs[0]} + Members(rs[1..]) {
          assert r in rs <==> r == rs[0] || r in rs[1..];
        }
      }
    }
  }

  /** Giving back distinct kinds, all of them held, is legal and removes
      exactly those kinds. */
  lemma {:induction false} GivesAll(held: set<Resource>, rs: seq<Resource>)
    requires Distinct(rs)
    requires forall i :: 0 <= i < |rs| ==> rs[i] in held
    ensures Legal(held, Gives(rs))
    ensures After(held, Gives(rs)) == held - Members(rs)
    decreases |rs|
  {
    if rs != [] {
      var log := Gives(rs);
      assert log[0] == Give(rs[0]);
      assert log[1..] == Gives(rs[1..]);
      GivesAll(held - {rs[0]}, rs[1..]);
      assert Members(rs) == {rs[0]} + Members(rs[1..]) by {
        forall r ensures r in Members(rs) <==> r in {rs[0]} + Members(rs[1..]) {
          assert r in rs <==> r == rs[0] || r in rs[1..];
        }
      }
    }
  }

  /** A trace of statuses follows `path`: it is a non-empty prefix of it, or
      a prefix of it cut short by `failed`. */
  predicate FollowsPath<S(==)>(trace: seq<S>, path: seq<S>, failed: S)
  {
    && 1 <= |trace| <= |path|
    && (trace == path[..|trace|]
        || (2 <= |trace| && trace == path[..|trace| - 1] + [failed]))
  }
}
