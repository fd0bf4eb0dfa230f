/**
 The derived columns of the bets table: the displayed odds of a row and its gross
 gaming revenue (GGR), signed by the role of the row's channel.
 */
module Settlement {
  import opened Wrappers
  import opened Betting
  import Seqs

  /** The six outcome states a result code names, and codes outside them. */
  datatype Outcome =
    | Lost            // 0
    | Won             // 1
    | LostHalfBack    // 2: lost, half the stake returned
    | WonHalfBack     // 3: won, half the stake returned
    | Push            // 4
    | Open            // 5
    | Unrecognised(code: int)
  {
    /** An `Unrecognised` outcome never carries one of the six known codes. */
    predicate Valid() {
      Unrecognised? ==> !(0 <= code <= 5)
    }
  }

  function Encode(o: Outcome): int {
    match o
    case Lost => 0
    case Won => 1
    case LostHalfBack => 2
    case WonHalfBack => 3
    case Push => 4
    case Open => 5
    case Unrecognised(c) => c
  }

  /** Reads a stored result code as an outcome; every code decodes to a valid one. */
  function Decode(code: int): (o: Outcome)
    ensures o.Valid()
    ensures Encode(o) == code
  {
    if code == 0 then Lost
    else if code == 1 then Won
    else if code == 2 then LostHalfBack
    else if code == 3 then WonHalfBack
    else if code == 4 then Push
    else if code == 5 then Open
    else Unrecognised(code)
  }

  lemma DecodeEncode(o: Outcome)
    requires o.Valid()
    ensures Decode(Encode(o)) == o
  {
  }

  /**
   The revenue table from the Provider's side, one row per outcome: a reference
   definition independent of the switch in the table cell.
   */
  function ProviderGgr(o: Outcome, stake: real, odds: real): real {
    match o
    case Lost => -stake
    case Won => stake * (odds - 1.0)
    case LostHalfBack => -(stake / 2.0)
    case WonHalfBack => (stake / 2.0) * (odds - 1.0)
    case Push => 0.0
    case Open => 0.0
    case Unrecognised(_) => 0.0
  }

  /**
   The GGR cell's switch on the stored result code, with a separate expression per
   role in every branch, as the cell writes it.
   */
  function GgrFor(result: int, stake: real, odds: real, role: Role): (ggr: real)
    ensures role == Provider ==> ggr == ProviderGgr(Decode(result), stake, odds)
    ensures role == Bettor ==> ggr == -ProviderGgr(Decode(result), stake, odds)
  {
    if result == 0 then
      (if role == Provider then -stake else stake)
    else if result == 1 then
      (if role == Provider then stake * (odds - 1.0) else -stake * (odds - 1.0))
    else if result == 2 then
      (if role == Provider then -stake / 2.0 else stake / 2.0)
    else if result == 3 then
      (if role == Provider then (stake / 2.0) * (odds - 1.0) else -(stake / 2.0) * (odds - 1.0))
    else if result == 4 || result == 5 then
      0.0
    else
      0.0
  }

  /** `k` is the position of the first channel whose id is `id`. */
  predicate FirstWithId(channels: seq<Channel>, k: int, id: int) {
    && 0 <= k < |channels|
    && channels[k].id == id
    && forall j :: 0 <= j < k ==> channels[j].id != id
  }

  /** `channels.find(ch => ch.id === id)`: the first channel with that id, if any. */
  function FindChannel(channels: seq<Channel>, id: int): (found: Option<Channel>)
    ensures found.None? <==> forall i :: 0 <= i < |channels| ==> channels[i].id != id
    ensures found.Some? ==> exists k :: FirstWithId(channels, k, id) && channels[k] == found.value
    decreases |channels|
  {
    if |channels| == 0 then None
    else if channels[0].id == id then Some(channels[0])
    else
      var rest := FindChannel(channels[1..], id);
      if rest.Some? then
        var k' :| FirstWithId(channels[1..], k', id) && channels[1..][k'] == rest.value;
        assert FirstWithId(channels, k' + 1, id) by {
          forall j | 0 <= j < k' + 1 ensures channels[j].id != id {
            if j > 0 {
              assert channels[j] == channels[1..][j - 1];
            }
          }
        }
        assert channels[k' + 1] == rest.value;
        rest
      else
        assert forall i :: 0 <= i < |channels| ==> channels[i].id != id by {
          forall i | 0 <= i < |channels| ensures channels[i].id != id {
            if i > 0 {
              assert channels[i] == channels[1..][i - 1];
            }
          }
        }
        rest
  }

  /** The role the GGR cell uses: the found channel's role, Provider when none is found. */
  function RoleOf(channels: seq<Channel>, channelId: int): (role: Role)
    ensures (forall i :: 0 <= i < |channels| ==> channels[i].id != channelId) ==> role == Provider
    ensures forall k :: FirstWithId(channels, k, channelId) ==> role == channels[k].role
  {
    match FindChannel(channels, channelId)
    case Some(ch) => ch.role
    case None => Provider
  }

  /**
   The GGR cell of a row: the Provider table value for the row's stored result,
   stake and odds, negated when the row's channel is a Bettor channel. It reads the
   stored `odds` field, whatever the bet's kind.
   */
  function Ggr(bet: Bet, channels: seq<Channel>): (ggr: real)
    ensures ggr == (if RoleOf(channels, bet.channelId) == Provider then 1.0 else -1.0)
      * ProviderGgr(Decode(bet.result), bet.stake, bet.odds)
  {
    GgrFor(bet.result, bet.stake, bet.odds, RoleOf(channels, bet.channelId))
  }

  /** `Number(e.odds) || 1`: a zero or unreadable leg counts as 1. */
  function LegFactor(leg: StoredLeg): (f: real)
    ensures f != 0.0
    ensures leg.odds.Some? && leg.odds.value != 0.0 ==> f == leg.odds.value
    ensures leg.odds.None? || leg.odds.value == 0.0 ==> f == 1.0
  {
    match leg.odds
    case Some(x) => if x != 0.0 then x else 1.0
    case None => 1.0
  }

  /** The factors the odds cell multiplies, in leg order. */
  function LegFactors(legs: seq<StoredLeg>): (fs: seq<real>)
    ensures |fs| == |legs|
    ensures forall i :: 0 <= i < |legs| ==> fs[i] == LegFactor(legs[i])
  {
    seq(|legs|, i requires 0 <= i < |legs| => LegFactor(legs[i]))
  }

  predicate HasLegs(bet: Bet) {
    bet.kind == MultiKind && bet.multiEntries.Some? && |bet.multiEntries.value| > 0
  }

  /** The odds cell: a Multi bet with legs shows its leg product, any other row its `odds`. */
  function DisplayedOdds(bet: Bet): (odds: real)
    ensures !HasLegs(bet) ==> odds == bet.odds
    ensures HasLegs(bet) ==> odds != 0.0
    ensures HasLegs(bet) ==> odds == Seqs.Product(LegFactors(bet.multiEntries.value))
  {
    if HasLegs(bet) then
      var fs := LegFactors(bet.multiEntries.value);
      Seqs.ProductZeroIff(fs);
      Seqs.Product(fs)
    else
      bet.odds
  }

  /** The odds values of legs whose odds are all present. */
  function LegValues(legs: seq<StoredLeg>): (xs: seq<real>)
    requires forall i :: 0 <= i < |legs| ==> legs[i].odds.Some?
    ensures |xs| == |legs|
    ensures forall i :: 0 <= i < |legs| ==> xs[i] == legs[i].odds.value
  {
    seq(|legs|, i requires 0 <= i < |legs| => legs[i].odds.value)
  }

  /** When every leg carries non-zero odds, the displayed odds are their plain product. */
  lemma DisplayedOddsOfUsableLegs(bet: Bet)
    requires HasLegs(bet)
    requires forall i :: 0 <= i < |bet.multiEntries.value| ==>
      bet.multiEntries.value[i].odds.Some? && bet.multiEntries.value[i].odds.value != 0.0
    ensures DisplayedOdds(bet) == Seqs.Product(LegValues(bet.multiEntries.value))
  {
    assert LegFactors(bet.multiEntries.value) == LegValues(bet.multiEntries.value);
  }

  /** A zero or missing leg anywhere in the list is the same as no leg at all. */
  lemma {:induction false} DeadLegCountsAsOne(a: seq<StoredLeg>, leg: StoredLeg, b: seq<StoredLeg>)
    requires leg.odds.None? || leg.odds.value == 0.0
    ensures Seqs.Product(LegFactors(a + [leg] + b)) == Seqs.Product(LegFactors(a + b))
  {
    assert LegFactors(a + [leg] + b) == LegFactors(a) + [1.0] + LegFactors(b);
    assert LegFactors(a + b) == LegFactors(a) + LegFactors(b);
    Seqs.ProductConcat(LegFactors(a) + [1.0], LegFactors(b));
    Seqs.ProductConcat(LegFactors(a), [1.0]);
    Seqs.ProductConcat(LegFactors(a), LegFactors(b));
  }

  /** A Multi bet whose legs are all zero or missing shows odds 1. */
  lemma AllDeadLegsShowOne(bet: Bet)
    requires HasLegs(bet)
    requires forall i :: 0 <= i < |bet.multiEntries.value| ==>
      bet.multiEntries.value[i].odds.None? || bet.multiEntries.value[i].odds.value == 0.0
    ensures DisplayedOdds(bet) == 1.0
  {
    Seqs.ProductOfOnes(LegFactors(bet.multiEntries.value));
  }

  /** For every result code, the Bettor figure mirrors the Provider figure. */
  lemma BettorMirrorsProvider(result: int, stake: real, odds: real)
    ensures GgrFor(result, stake, odds, Bettor) == -GgrFor(result, stake, odds, Provider)
  {
  }

  /** Push, open and unrecognised codes yield no revenue for either role. */
  lemma NoRevenueWithoutSettlement(result: int, stake: real, odds: real, role: Role)
    requires !(0 <= result <= 3)
    ensures GgrFor(result, stake, odds, role) == 0.0
  {
  }

  /** A half-back outcome is worth exactly half of the corresponding full outcome. */
  lemma HalfBackIsHalf(stake: real, odds: real, role: Role)
    ensures GgrFor(2, stake, odds, role) == GgrFor(0, stake, odds, role) / 2.0
    ensures GgrFor(3, stake, odds, role) == GgrFor(1, stake, odds, role) / 2.0
  {
  }

  /** Revenue scales with the stake. */
  lemma GgrScalesWithStake(result: int, stake: real, odds: real, role: Role, k: real)
    ensures GgrFor(result, k * stake, odds, role) == k * GgrFor(result, stake, odds, role)
  {
  }

  /**
   The Provider's sign: for a non-negative stake a lost bet never yields positive
   revenue, and a won bet at odds of at least 1 never yields negative revenue.
   */
  lemma ProviderSign(result: int, stake: real, odds: real)
    requires stake >= 0.0
    ensures (result == 0 || result == 2) ==> GgrFor(result, stake, odds, Provider) <= 0.0
    ensures (result == 1 || result == 3) && odds >= 1.0 ==> GgrFor(result, stake, odds, Provider) >= 0.0
  {
  }

  /** A row whose channel id matches no channel is settled as a Provider row. */
  lemma UnknownChannelIsProvider(bet: Bet, channels: seq<Channel>)
    requires forall i :: 0 <= i < |channels| ==> channels[i].id != bet.channelId
    ensures Ggr(bet, channels) == GgrFor(bet.result, bet.stake, bet.odds, Provider)
  {
  }

  /** The GGR of a row does not depend on its legs: the leg product is not consulted. */
  lemma GgrIgnoresLegs(bet: Bet, legs: Option<seq<StoredLeg>>, channels: seq<Channel>)
    ensures Ggr(bet.(multiEntries := legs), channels) == Ggr(bet, channels)
  {
  }
}
