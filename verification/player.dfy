/**
 The record kept for one player of the rating system.

 A player carries a rating, a rating deviation and a rating volatility twice:
 once as the *current* values, which the getters report, and once as the
 *staged* ("new") values, which the setters write. The staged values are
 taken over as the current ones, all three in a single step, when
 `AdoptNewValues` is called.

 The numbers are stored and copied, never computed with, so they are modelled
 as `real` values kept verbatim.
 */
module Players {

  /** One generation of a player's three quantities. */
  datatype Values = Values(rating: real, deviation: real, volatility: real)

  /** Names one of the three quantities. */
  datatype Field = Rating | Deviation | Volatility

  /** The quantity `f` of `v`. */
  function Get(v: Values, f: Field): real
  {
    match f
    case Rating => v.rating
    case Deviation => v.deviation
    case Volatility => v.volatility
  }

  /** A player: `current` is what the getters report, `staged` is what the setters write. */
  datatype Player = Player(current: Values, staged: Values)
  {
    /** The current rating (never the staged one). */
    function GetRating(): real { current.rating }

    /** The current rating deviation (never the staged one). */
    function GetDeviation(): real { current.deviation }

    /** The current rating volatility (never the staged one). */
    function GetVolatility(): real { current.volatility }
  }

  /** Nothing is staged that the getters do not already report. */
  predicate Committed(p: Player)
  {
    p.staged == p.current
  }

  /** A new player: current and staged values both start at the arguments. */
  function NewPlayer(initialRating: real, initialDeviation: real, initialVolatility: real): (p: Player)
    ensures p.GetRating() == initialRating
    ensures p.GetDeviation() == initialDeviation
    ensures p.GetVolatility() == initialVolatility
    ensures Get(p.staged, Rating) == initialRating
    ensures Get(p.staged, Deviation) == initialDeviation
    ensures Get(p.staged, Volatility) == initialVolatility
    ensures Committed(p)
  {
    var v := Values(initialRating, initialDeviation, initialVolatility);
    Player(v, v)
  }

  /** Stages a new rating; the getters and the other staged values are untouched. */
  function SetNewRating(p: Player, rating: real): (q: Player)
    ensures Get(q.staged, Rating) == rating
    ensures Get(q.staged, Deviation) == Get(p.staged, Deviation)
    ensures Get(q.staged, Volatility) == Get(p.staged, Volatility)
    ensures q.GetRating() == p.GetRating()
    ensures q.GetDeviation() == p.GetDeviation()
    ensures q.GetVolatility() == p.GetVolatility()
  {
    p.(staged := p.staged.(rating := rating))
  }

  /** Stages a new deviation; the getters and the other staged values are untouched. */
  function SetNewDeviation(p: Player, deviation: real): (q: Player)
    ensures Get(q.staged, Deviation) == deviation
    ensures Get(q.staged, Rating) == Get(p.staged, Rating)
    ensures Get(q.staged, Volatility) == Get(p.staged, Volatility)
    ensures q.GetRating() == p.GetRating()
    ensures q.GetDeviation() == p.GetDeviation()
    ensures q.GetVolatility() == p.GetVolatility()
  {
    p.(staged := p.staged.(deviation := deviation))
  }

  /** Stages a new volatility; the getters and the other staged values are untouched. */
  function SetNewVolatility(p: Player, volatility: real): (q: Player)
    ensures Get(q.staged, Volatility) == volatility
    ensures Get(q.staged, Rating) == Get(p.staged, Rating)
    ensures Get(q.staged, Deviation) == Get(p.staged, Deviation)
    ensures q.GetRating() == p.GetRating()
    ensures q.GetDeviation() == p.GetDeviation()
    ensures q.GetVolatility() == p.GetVolatility()
  {
    p.(staged := p.staged.(volatility := volatility))
  }

  /** Makes the staged values current; afterwards the getters report what was staged. */
  function AdoptNewValues(p: Player): (q: Player)
    ensures q.GetRating() == Get(p.staged, Rating)
    ensures q.GetDeviation() == Get(p.staged, Deviation)
    ensures q.GetVolatility() == Get(p.staged, Volatility)
    ensures Committed(q)
  {
    Player(p.staged, p.staged)
  }

  /** Each getter reads the current values only: replacing the staged values changes none of them. */
  lemma GettersReadCurrent(p: Player, staged: Values)
    ensures Player(p.current, staged).GetRating() == p.GetRating()
    ensures Player(p.current, staged).GetDeviation() == p.GetDeviation()
    ensures Player(p.current, staged).GetVolatility() == p.GetVolatility()
  {
  }

  /** Rebuilding a player from what its getters report gives the same player exactly when nothing is pending. */
  lemma RebuildFromGetters(p: Player)
    ensures NewPlayer(p.GetRating(), p.GetDeviation(), p.GetVolatility()) == p <==> Committed(p)
  {
  }

  /** Adopting twice is the same as adopting once. */
  lemma AdoptIdempotent(p: Player)
    ensures AdoptNewValues(AdoptNewValues(p)) == AdoptNewValues(p)
  {
  }

  /** Adopting changes a player exactly when something is pending. */
  lemma AdoptFixesCommitted(p: Player)
    ensures AdoptNewValues(p) == p <==> Committed(p)
  {
  }

  /** Adopting straight after construction, with no setter called, changes nothing. */
  lemma AdoptAfterConstruction(initialRating: real, initialDeviation: real, initialVolatility: real)
    ensures AdoptNewValues(NewPlayer(initialRating, initialDeviation, initialVolatility))
         == NewPlayer(initialRating, initialDeviation, initialVolatility)
  {
  }

  // ---------------------------------------------------------------------------
  // Sequences of setter calls

  /** One call of a setter: the field it writes and the value it stages. */
  datatype Staging = SetNew(field: Field, value: real)

  /** Performs one setter call. */
  function Stage(p: Player, c: Staging): (q: Player)
    ensures q.current == p.current
    ensures Get(q.staged, c.field) == c.value
    ensures forall f :: f != c.field ==> Get(q.staged, f) == Get(p.staged, f)
  {
    match c.field
    case Rating => SetNewRating(p, c.value)
    case Deviation => SetNewDeviation(p, c.value)
    case Volatility => SetNewVolatility(p, c.value)
  }

  /** Performs the setter calls `cs` in order. */
  function StageAll(p: Player, cs: seq<Staging>): Player
    decreases |cs|
  {
    if cs == [] then p else StageAll(Stage(p, cs[0]), cs[1..])
  }

  /**
   Reference definition of what the staging field `f` holds after the calls
   `cs`: the value of the last call that writes `f`, or `prior` when none does.
   */
  function LastWrite(cs: seq<Staging>, f: Field, prior: real): real
    decreases |cs|
  {
    if cs == [] then prior
    else if cs[|cs| - 1].field == f then cs[|cs| - 1].value
    else LastWrite(cs[..|cs| - 1], f, prior)
  }

  /** No two calls of `cs` write the same field. */
  predicate OnePerField(cs: seq<Staging>)
  {
    forall i, j :: 0 <= i < j < |cs| ==> cs[i].field != cs[j].field
  }

  /** Performing `cs` and then one more call is performing the extended sequence. */
  lemma {:induction false} StageAllSnoc(p: Player, cs: seq<Staging>, c: Staging)
    ensures StageAll(p, cs + [c]) == Stage(StageAll(p, cs), c)
    decreases |cs|
  {
    if cs == [] {
      assert cs + [c] == [c];
      assert [c][1..] == [];
    } else {
      assert (cs + [c])[0] == cs[0];
      assert (cs + [c])[1..] == cs[1..] + [c];
      StageAllSnoc(Stage(p, cs[0]), cs[1..], c);
    }
  }

  /** Setter calls never touch the current values, and each staged field ends with its last write. */
  lemma {:induction false} StageAllIsLastWrite(p: Player, cs: seq<Staging>)
    ensures StageAll(p, cs).current == p.current
    ensures forall f :: Get(StageAll(p, cs).staged, f) == LastWrite(cs, f, Get(p.staged, f))
    decreases |cs|
  {
    if cs != [] {
      var init, last := cs[..|cs| - 1], cs[|cs| - 1];
      assert cs == init + [last];
      StageAllSnoc(p, init, last);
      StageAllIsLastWrite(p, init);
    }
  }

  /** When one call writes `f` and no other call does, that call's value is the last write. */
  lemma {:induction false} LastWriteOfUnique(cs: seq<Staging>, f: Field, prior: real, k: nat)
    requires OnePerField(cs)
    requires k < |cs| && cs[k].field == f
    ensures LastWrite(cs, f, prior) == cs[k].value
    decreases |cs|
  {
    if k < |cs| - 1 {
      var init := cs[..|cs| - 1];
      assert init[k] == cs[k];
      LastWriteOfUnique(init, f, prior, k);
    }
  }

  /** When no call writes `f`, the field keeps its prior value. */
  lemma {:induction false} LastWriteOfAbsent(cs: seq<Staging>, f: Field, prior: real)
    requires forall c :: c in cs ==> c.field != f
    ensures LastWrite(cs, f, prior) == prior
    decreases |cs|
  {
    if cs != [] {
      assert cs[|cs| - 1] in cs;
      var init := cs[..|cs| - 1];
      assert forall c :: c in init ==> c in cs;
      LastWriteOfAbsent(init, f, prior);
    }
  }

  /** A value that sits at two different positions of `s` occurs at least twice in it. */
  lemma TwoPositionsTwice(s: seq<Staging>, i: nat, j: nat)
    requires i < j < |s| && s[i] == s[j]
    ensures multiset(s)[s[i]] >= 2
  {
    var pre := s[..j];
    assert s == pre + [s[j]] + s[j + 1..];
    assert pre[i] == s[i];
    assert s[i] in multiset(pre);
  }

  /** A value that occurs at least twice in `s` sits at two different positions. */
  lemma TwiceTwoPositions(s: seq<Staging>, x: Staging) returns (i: nat, j: nat)
    requires multiset(s)[x] >= 2
    ensures i < j < |s| && s[i] == x && s[j] == x
  {
    assert x in multiset(s);
    var k :| 0 <= k < |s| && s[k] == x;
    var rest := s[..k] + s[k + 1..];
    assert s == s[..k] + [x] + s[k + 1..];
    assert multiset(rest)[x] >= 1;
    assert x in rest;
    if x in s[..k] {
      var a :| 0 <= a < k && s[..k][a] == x;
      i, j := a, k;
    } else {
      assert x in s[k + 1..];
      var b :| 0 <= b < |s| - k - 1 && s[k + 1..][b] == x;
      i, j := k, k + 1 + b;
    }
  }

  /** Two positions of `b` hold values found at two different positions of its reordering `a`. */
  lemma DistinctPositions(a: seq<Staging>, b: seq<Staging>, i: nat, j: nat) returns (i': nat, j': nat)
    requires multiset(a) == multiset(b)
    requires i < j < |b|
    ensures i' < |a| && j' < |a| && i' != j'
    ensures a[i'] == b[i] && a[j'] == b[j]
  {
    if b[i] == b[j] {
      TwoPositionsTwice(b, i, j);
      i', j' := TwiceTwoPositions(a, b[i]);
    } else {
      assert b[i] in multiset(a) && b[j] in multiset(a);
      i' :| 0 <= i' < |a| && a[i'] == b[i];
      j' :| 0 <= j' < |a| && a[j'] == b[j];
    }
  }

  /** Reordering calls that write distinct fields keeps them writing distinct fields. */
  lemma OnePerFieldReordered(a: seq<Staging>, b: seq<Staging>)
    requires OnePerField(a)
    requires multiset(a) == multiset(b)
    ensures OnePerField(b)
  {
    forall i, j | 0 <= i < j < |b|
      ensures b[i].field != b[j].field
    {
      var i', j' := DistinctPositions(a, b, i, j);
      if i' < j' {
        assert a[i'].field != a[j'].field;
      } else {
        assert a[j'].field != a[i'].field;
      }
    }
  }

  /**
   The order of setter calls that write distinct fields does not matter: any
   reordering stages the same values and leaves the current values alone.
   */
  lemma SetterOrderIrrelevant(p: Player, a: seq<Staging>, b: seq<Staging>)
    requires OnePerField(a)
    requires multiset(a) == multiset(b)
    ensures StageAll(p, a) == StageAll(p, b)
  {
    OnePerFieldReordered(a, b);
    StageAllIsLastWrite(p, a);
    StageAllIsLastWrite(p, b);
    forall f: Field
      ensures LastWrite(a, f, Get(p.staged, f)) == LastWrite(b, f, Get(p.staged, f))
    {
      if k :| 0 <= k < |a| && a[k].field == f {
        assert a[k] in multiset(b);
        var k' :| 0 <= k' < |b| && b[k'] == a[k];
        LastWriteOfUnique(a, f, Get(p.staged, f), k);
        LastWriteOfUnique(b, f, Get(p.staged, f), k');
      } else {
        assert forall c :: c in a ==> c.field != f;
        assert forall c :: c in b ==> c in multiset(a);
        LastWriteOfAbsent(a, f, Get(p.staged, f));
        LastWriteOfAbsent(b, f, Get(p.staged, f));
      }
    }
    var sa, sb := StageAll(p, a).staged, StageAll(p, b).staged;
    assert sa.rating == Get(sa, Rating) == Get(sb, Rating) == sb.rating;
    assert sa.deviation == Get(sa, Deviation) == Get(sb, Deviation) == sb.deviation;
    assert sa.volatility == Get(sa, Volatility) == Get(sb, Volatility) == sb.volatility;
  }

  /**
   Calling the three setters once each, in any order, and then adopting makes
   the three staged values current.
   */
  lemma ThreeSettersAnyOrder(p: Player, rating: real, deviation: real, volatility: real, cs: seq<Staging>)
    requires multiset(cs) == multiset{SetNew(Rating, rating), SetNew(Deviation, deviation), SetNew(Volatility, volatility)}
    ensures AdoptNewValues(StageAll(p, cs)).current == Values(rating, deviation, volatility)
    ensures AdoptNewValues(StageAll(p, cs)).staged == Values(rating, deviation, volatility)
  {
    var inOrder := [SetNew(Rating, rating), SetNew(Deviation, deviation), SetNew(Volatility, volatility)];
    assert multiset(inOrder) == multiset(cs);
    SetterOrderIrrelevant(p, inOrder, cs);
    var p1 := Stage(p, inOrder[0]);
    var p2 := Stage(p1, inOrder[1]);
    var p3 := Stage(p2, inOrder[2]);
    assert StageAll(p2, inOrder[2..]) == p3 by {
      assert inOrder[2..][1..] == [];
    }
    assert StageAll(p1, inOrder[1..]) == p3 by {
      assert inOrder[1..][1..] == inOrder[2..];
    }
  }
}
