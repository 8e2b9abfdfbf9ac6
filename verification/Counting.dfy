/** Two routers that send data for a destination to each other keep raising its cost. The
    table holds 32 bits and a packet 16, and only the exact value 65535 reads as infinite:
    most counts step over it and go on for ever. */
module Counting {
  import opened RouterTables
  import opened RouterInvariant
  import opened StaleRoutes
  import opened Words

  /** The only way of r to d is its neighbour h, at a distance of w. */
  ghost predicate Relies(r: Router, h: nat, d: nat, w: nat) {
    && Consistent(r) && d in r.dv && r.dv[d].nextHop == h && d !in r.neighbors
    && h in r.neighbors && r.neighbors[h].cost == w
  }

  /** What a router that relies on h does with the news of h about d. */
  function Answer(r: Router, h: nat, d: nat, w: nat, c: nat, now: nat): (Router, seq<Entry>) {
    if c == INFINITY_COST then (r.(dv := r.dv - {d}, forwarding := r.forwarding - {d}), [Entry(d, INFINITY_COST)])
    else (r.(dv := r.dv[d := Cell(h, U32(c + w), now)], forwarding := r.forwarding[d := h]), [Entry(d, U16(c + w))])
  }

  /** Truncation to 16 bits may come before or after an addition, and after one to 32. */
  lemma Truncations(c: nat, w: nat)
    ensures U16(U16(c) + w) == U16(c + w) && U16(U32(c + w)) == U16(c + w)
  {
    WiderWord(c + w, 0);
    MultiplesVanish(U16(c) + w, c + w, -(c / 0x1_0000));
  }

  /** It takes any finite cost, higher or lower, adds w and tells everybody. */
  lemma NewsIsTaken(r: Router, h: nat, d: nat, w: nat, port: nat, c: nat, now: nat, junk: nat)
    requires Relies(r, h, d, w)
    ensures RecvDV(r, port, h, [Entry(d, c)], now, junk) == Answer(r, h, d, w, c, now)
  {
    hide Consistent, Relax, Judge, U16, U32;
    SingleEntry(r, h, Entry(d, c), now);
    JudgeNews(r, h, d, w, c);
    Truncations(c, w);
  }

  lemma JudgeNews(r: Router, h: nat, d: nat, w: nat, c: nat)
    requires Relies(r, h, d, w)
    ensures Judge(r, h, Entry(d, c)) == if c == INFINITY_COST then Drop else Take(h, U32(c + w))
  {
    assert RouteBacked(r, d);
    hide Consistent, U32;
  }

  lemma SingleEntry(r: Router, h: nat, e: Entry, now: nat)
    requires h in r.neighbors
    ensures Relax(r, h, [e], now) == (Apply(r, e.dest, Judge(r, h, e), now), Adverts(r, e.dest, Judge(r, h, e)))
  {
    hide Apply;
    assert [e][..0] == [] && Relax(r, h, [], now) == (r, []);
    var v := Judge(r, h, e);
    assert [] + Adverts(r, e.dest, v) == Adverts(r, e.dest, v);
  }

  lemma AnswerRelies(r: Router, h: nat, d: nat, w: nat, c: nat, now: nat)
    requires Relies(r, h, d, w) && c != INFINITY_COST
    ensures Relies(Answer(r, h, d, w, c, now).0, h, d, w)
  {
  }

  // ---------------------------------------------------------------- the exchange

  /** What one router has told the other, which answers next. */
  datatype Talk = Talk(from: Router, to: Router, news: seq<Entry>)

  function Turn(x: Talk, now: nat): Talk {
    if x.news == [] then x
    else
      var (q, ads) := RecvDV(x.to, 0, x.from.id, x.news, now, 0);
      Talk(q, x.from, ads)
  }

  /** As many answers as there are times. */
  function Turns(x: Talk, times: seq<nat>): Talk {
    if times == [] then x else Turn(Turns(x, times[..|times| - 1]), times[|times| - 1])
  }

  /** The two rely on each other, and the cost of one is on its way to the other. */
  ghost predicate Mutual(x: Talk, d: nat, w: nat, c: nat) {
    && Relies(x.from, x.to.id, d, w) && Relies(x.to, x.from.id, d, w)
    && x.news == [Entry(d, U16(c))] && U16(x.from.dv[d].cost) == U16(c)
  }

  /** The route is given up, or will be with the next answer. */
  ghost predicate Broken(x: Talk, d: nat) {
    && Consistent(x.from) && Consistent(x.to) && d !in x.from.dv && d !in x.from.neighbors && d !in x.to.neighbors
    && x.from.id in x.to.neighbors && x.to.id in x.from.neighbors
    && (x.news == [Entry(d, INFINITY_COST)] || (x.news == [] && d !in x.to.dv))
    && (d in x.to.dv ==> x.to.dv[d].nextHop == x.from.id)
  }

  lemma MutualTurn(x: Talk, d: nat, w: nat, c: nat, now: nat)
    requires Mutual(x, d, w, c)
    ensures if U16(c) != INFINITY_COST then Mutual(Turn(x, now), d, w, c + w) else Broken(Turn(x, now), d)
  {
    hide RecvDV, Relies, Consistent;
    NewsIsTaken(x.to, x.from.id, d, w, 0, U16(c), now, 0);
    MutualFacts(x, d, w, c);
    if U16(c) != INFINITY_COST {
      AnswerRelies(x.to, x.from.id, d, w, U16(c), now);
      Truncations(c, w);
      Truncations(U16(c), w);
    } else {
      DropConsistent(x.to, d);
    }
  }

  lemma DropConsistent(r: Router, d: nat)
    requires Consistent(r)
    ensures Consistent(r.(dv := r.dv - {d}, forwarding := r.forwarding - {d}))
  {
  }

  lemma MutualFacts(x: Talk, d: nat, w: nat, c: nat)
    requires Mutual(x, d, w, c)
    ensures Consistent(x.from) && Consistent(x.to) && d !in x.from.neighbors && d !in x.to.neighbors
    ensures x.from.id in x.to.neighbors && x.to.id in x.from.neighbors
    ensures d in x.from.dv && x.from.dv[d].nextHop == x.to.id
  {
  }

  lemma BrokenTurn(x: Talk, d: nat, now: nat)
    requires Broken(x, d)
    ensures Broken(Turn(x, now), d)
  {
    if x.news != [] {
      SingleEntry(x.to, x.from.id, x.news[0], now);
      DropConsistent(x.to, d);
      assert x.news == [x.news[0]];
      hide Consistent, Relax;
    }
  }

  /** c, c + w, c + 2w, ... steps on 65535 among its first n values. */
  ghost predicate Meets(c: nat, w: nat, n: nat) {
    exists k: nat :: k < n && U16(c + k * w) == INFINITY_COST
  }

  /** After any number of answers the two still rely on each other, at the cost raised by w
      for each of them, exactly if none of the costs told was 65535; else the route is
      given up. */
  lemma {:induction false} AfterTurns(x: Talk, d: nat, w: nat, c: nat, times: seq<nat>)
    requires Mutual(x, d, w, c)
    ensures if Meets(c, w, |times|) then Broken(Turns(x, times), d)
            else Mutual(Turns(x, times), d, w, c + |times| * w)
  {
    hide Mutual, Broken, Turn, U16;
    if times == [] {
    } else {
      var n := |times| - 1;
      AfterTurns(x, d, w, c, times[..n]);
      MeetsNext(c, w, n);
      var y := Turns(x, times[..n]);
      if Meets(c, w, n) {
        BrokenTurn(y, d, times[n]);
      } else {
        MutualTurn(y, d, w, c + n * w, times[n]);
        assert c + n * w + w == c + (n + 1) * w;
      }
    }
  }

  lemma MeetsNext(c: nat, w: nat, n: nat)
    ensures Meets(c, w, n + 1) <==> Meets(c, w, n) || U16(c + n * w) == INFINITY_COST
  {
    hide U16;
    if Meets(c, w, n + 1) {
      var k: nat :| k < n + 1 && U16(c + k * w) == INFINITY_COST;
      assert k < n || k == n;
    }
  }

  /** The two forward to each other after any number of answers exactly if the count has
      not met 65535. */
  lemma CountingEndsExactly(x: Talk, d: nat, w: nat, c: nat, times: seq<nat>)
    requires Mutual(x, d, w, c)
    ensures var y := Turns(x, times);
      Loops(y.from, y.to, d) <==> !Meets(c, w, |times|)
  {
    hide *;
    AfterTurns(x, d, w, c, times);
    MutualLoops(Turns(x, times), d, w, c + |times| * w);
  }

  lemma MutualLoops(x: Talk, d: nat, w: nat, c: nat)
    ensures Mutual(x, d, w, c) ==> Loops(x.from, x.to, d)
    ensures Broken(x, d) ==> !Loops(x.from, x.to, d)
  {
    assert Mutual(x, d, w, c) ==> RouteBacked(x.from, d) && RouteBacked(x.to, d);
  }

  // ---------------------------------------------------------------- which counts end

  /** n can be halved g times: 2^g divides it. */
  predicate Halves(n: nat, g: nat) {
    g == 0 || (n % 2 == 0 && Halves(n / 2, g - 1))
  }

  /** The step can be halved more often than the way from c to 65536, in 16 bits. */
  ghost predicate StepsOver(c: nat, w: nat) {
    exists g: nat :: g <= 16 && Halves(w, g) && !Halves(c + 1, g)
  }

  function HalvedBy(n: nat, g: nat): nat {
    if g == 0 then n else HalvedBy(n / 2, g - 1)
  }

  lemma {:induction false} HalvesAdd(n: nat, g: nat, h: nat)
    ensures Halves(n, g + h) <==> Halves(n, g) && Halves(HalvedBy(n, g), h)
    ensures HalvedBy(n, g + h) == HalvedBy(HalvedBy(n, g), h)
    decreases g
  {
    if g == 0 {
    } else {
      HalvesAdd(n / 2, g - 1, h);
    }
  }

  lemma FourthHalves(n: nat)
    ensures Halves(n, 4) <==> n % 0x10 == 0
    ensures HalvedBy(n, 4) == n / 0x10
  {
    HalvesAdd(n, 2, 2);
    HalvesTwice(n);
    HalvesTwice(n / 4);
    hide Halves, HalvedBy;
  }

  lemma HalvesOnce(n: nat)
    ensures Halves(n, 0)
    ensures Halves(n, 1) <==> n % 2 == 0
    ensures HalvedBy(n, 1) == n / 2
  {
    assert Halves(n / 2, 0) && HalvedBy(n / 2, 0) == n / 2;
  }

  lemma HalvesTwice(n: nat)
    ensures Halves(n, 2) <==> n % 4 == 0
    ensures HalvedBy(n, 2) == n / 4
  {
    HalvesAdd(n, 1, 1);
    HalvesOnce(n);
    HalvesOnce(n / 2);
    hide Halves, HalvedBy;
  }

  lemma EighthHalves(n: nat)
    ensures Halves(n, 8) <==> n % 0x100 == 0
    ensures HalvedBy(n, 8) == n / 0x100
  {
    hide Halves, HalvedBy;
    FourthHalves(n);
    FourthHalves(n / 0x10);
    HalvesAdd(n, 4, 4);
  }

  lemma SixteenthHalves(n: nat)
    ensures Halves(n, 16) <==> n % 0x1_0000 == 0
  {
    hide Halves, HalvedBy;
    EighthHalves(n);
    EighthHalves(n / 0x100);
    HalvesAdd(n, 8, 8);
    assert n % 0x1_0000 == n % 0x100 + 0x100 * (n / 0x100 % 0x100);
  }

  lemma InfiniteExactly(n: nat)
    ensures U16(n) == INFINITY_COST <==> Halves(n + 1, 16)
  {
    hide Halves;
    SixteenthHalves(n + 1);
  }

  lemma {:induction false} FewerHalves(n: nat, g: nat, h: nat)
    requires Halves(n, h) && g <= h
    ensures Halves(n, g)
  {
    if g == 0 {
    } else {
      FewerHalves(n / 2, g - 1, h - 1);
    }
  }

  /** Steps that can be halved do not change how often a sum can. */
  lemma {:induction false} StepsKeepHalves(c: nat, k: nat, w: nat, g: nat)
    requires Halves(w, g) && Halves(c + k * w, g)
    ensures Halves(c, g)
    decreases g
  {
    if g == 0 {
    } else {
      assert k * w == 2 * (k * (w / 2)) by {
        HalfProduct(k, w);
      }
      StepsKeepHalves(c / 2, k, w / 2, g - 1);
    }
  }

  lemma HalfProduct(k: nat, w: nat)
    requires w % 2 == 0
    ensures k * w == 2 * (k * (w / 2))
  {
    assert w == 2 * (w / 2);
    assert k * (2 * (w / 2)) == 2 * (k * (w / 2));
  }

  lemma NeverMeets(c: nat, w: nat, n: nat)
    requires StepsOver(c, w)
    ensures !Meets(c, w, n)
  {
    hide U16, Halves;
    if k: nat :| k < n && U16(c + k * w) == INFINITY_COST {
      var g: nat :| g <= 16 && Halves(w, g) && !Halves(c + 1, g);
      InfiniteExactly(c + k * w);
      FewerHalves(c + k * w + 1, g, 16);
      StepsKeepHalves(c + 1, k, w, g);
    }
  }

  lemma TwiceHalves(n: nat, m: nat, g: nat)
    requires g > 0 && n == 2 * m && Halves(m, g - 1)
    ensures Halves(n, g)
  {
  }

  lemma TwiceProduct(j: nat, w: nat)
    ensures 2 * j * w == 2 * (j * w) && (2 * j + 1) * w == 2 * (j * w) + w
  {
  }

  /** What can be halved at least as often as the step, some number of steps brings to
      where it can be halved n times. */
  lemma {:induction false} Reaches(c: nat, w: nat, n: nat) returns (k: nat)
    requires forall g: nat :: g <= n && Halves(w, g) ==> Halves(c, g)
    ensures Halves(c + k * w, n)
    decreases n
  {
    hide Halves;
    HalvesOnce(c);
    if n == 0 {
      k := 0;
    } else if w % 2 == 0 {
      HalvesBoth(c, w, n);
      k := Reaches(c / 2, w / 2, n - 1);
      HalfProduct(k, w);
      TwiceHalves(c + k * w, c / 2 + k * (w / 2), n);
    } else {
      var half := if c % 2 == 0 then c / 2 else (c + w) / 2;
      OddHalves(half, w, n - 1);
      var j := Reaches(half, w, n - 1);
      TwiceProduct(j, w);
      k := if c % 2 == 0 then 2 * j else 2 * j + 1;
      TwiceHalves(c + k * w, half + j * w, n);
    }
  }

  lemma HalvesBoth(c: nat, w: nat, n: nat)
    requires n > 0 && w % 2 == 0 && forall g: nat :: g <= n && Halves(w, g) ==> Halves(c, g)
    ensures c % 2 == 0 && forall g: nat :: g <= n - 1 && Halves(w / 2, g) ==> Halves(c / 2, g)
  {
    HalvesOnce(w);
    HalvesOnce(c);
    forall g: nat | g <= n - 1 && Halves(w / 2, g)
      ensures Halves(c / 2, g)
    {
      assert Halves(w, g + 1) && Halves(c, g + 1);
    }
  }

  lemma OddHalves(c: nat, w: nat, n: nat)
    requires w % 2 == 1
    ensures forall g: nat :: g <= n && Halves(w, g) ==> Halves(c, g)
  {
  }

  /** The count never meets 65535 exactly if the link's cost can be halved more often
      than the way from the first cost to 65536. */
  lemma StepsOverExactly(c: nat, w: nat)
    ensures StepsOver(c, w) <==> forall n: nat :: !Meets(c, w, n)
  {
    hide Halves, U16;
    if StepsOver(c, w) {
      forall n: nat
        ensures !Meets(c, w, n)
      {
        NeverMeets(c, w, n);
      }
    } else {
      var k := Reaches(c + 1, w, 16);
      InfiniteExactly(c + k * w);
      assert Meets(c, w, k + 1);
    }
  }

  /** Two routers that rely on each other forward to each other for ever, however many
      updates they exchange and whenever, exactly if the count steps over 65535. */
  lemma CountsForeverExactly(x: Talk, d: nat, w: nat, c: nat)
    requires Mutual(x, d, w, c)
    ensures (forall times: seq<nat> :: Loops(Turns(x, times).from, Turns(x, times).to, d)) <==> StepsOver(c, w)
  {
    hide Mutual, Meets, StepsOver, Loops, Turns;
    StepsOverExactly(c, w);
    forall times: seq<nat>
      ensures Loops(Turns(x, times).from, Turns(x, times).to, d) <==> !Meets(c, w, |times|)
    {
      CountingEndsExactly(x, d, w, c, times);
    }
    if !StepsOver(c, w) {
      var n: nat :| Meets(c, w, n);
      var times := seq(n, _ => 0);
      assert |times| == n;
      assert !Loops(Turns(x, times).from, Turns(x, times).to, d);
    }
  }

  /** Over a link with an even round-trip time, an even cost is counted up for ever. */
  lemma EvenCountsForever(x: Talk, d: nat, w: nat, c: nat, times: seq<nat>)
    requires Mutual(x, d, w, c) && c % 2 == 0 && w % 2 == 0
    ensures Mutual(Turns(x, times), d, w, c + |times| * w)
  {
    hide Mutual, Turns, Halves;
    HalvesOnce(w);
    HalvesOnce(c + 1);
    assert StepsOver(c, w);
    NeverMeets(c, w, |times|);
    AfterTurns(x, d, w, c, times);
  }

  /** The two take turns. */
  lemma {:induction false} SpeakersAlternate(x: Talk, d: nat, w: nat, c: nat, times: seq<nat>)
    requires Mutual(x, d, w, c) && c % 2 == 0 && w % 2 == 0
    ensures Turns(x, times).from.id == if |times| % 2 == 0 then x.from.id else x.to.id
    ensures Turns(x, times).to.id == if |times| % 2 == 0 then x.to.id else x.from.id
  {
    hide Mutual, RecvDV;
    if times == [] {
    } else {
      var n := |times| - 1;
      SpeakersAlternate(x, d, w, c, times[..n]);
      EvenCountsForever(x, d, w, c, times[..n]);
      TurnSwaps(Turns(x, times[..n]), d, w, c + n * w, times[n]);
    }
  }

  lemma TurnSwaps(x: Talk, d: nat, w: nat, c: nat, now: nat)
    requires Mutual(x, d, w, c)
    ensures Turn(x, now).from.id == x.to.id && Turn(x, now).to == x.from
  {
  }
}
