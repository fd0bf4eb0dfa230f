/**
 Worked examples of the settlement rules, and two consequences of the code: a
 zero leg counts as 1 in the table but zeroes the form's total, and the GGR of a
 Multi bet is taken from its stored odds, not from the odds the table displays.
 */
module Scenarios {
  import opened Wrappers
  import opened Betting
  import Seqs
  import Settlement
  import AddBetForm

  function SingleBet(stake: real, odds: real, result: int, channelId: int): Bet {
    Bet(1, "2025-01-01T12:00:00.000Z", channelId, "", stake, odds, "", result, "USD", SingleKind, None)
  }

  const ProviderChannel: Channel := Channel(1, "house", Provider)
  const BettorChannel: Channel := Channel(2, "punter", Bettor)

  /** A won single at 2.5 for 100: +150 on a Provider channel, -150 on a Bettor channel. */
  lemma WonSingle()
    ensures Settlement.Ggr(SingleBet(100.0, 2.5, 1, 1), [ProviderChannel, BettorChannel]) == 150.0
    ensures Settlement.Ggr(SingleBet(100.0, 2.5, 1, 2), [ProviderChannel, BettorChannel]) == -150.0
  {
    assert Settlement.FirstWithId([ProviderChannel, BettorChannel], 1, 2);
  }

  /** A lost single for 100 on a Provider channel: -100. A half-back win at 3.0: +100. */
  lemma LostAndHalfBackSingles()
    ensures Settlement.Ggr(SingleBet(100.0, 2.5, 0, 1), [ProviderChannel]) == -100.0
    ensures Settlement.Ggr(SingleBet(100.0, 3.0, 3, 1), [ProviderChannel]) == 100.0
  {
  }

  /** An open bet is worth nothing, whatever the channel, stake or odds. */
  lemma OpenBetIsZero(stake: real, odds: real, channelId: int, channels: seq<Channel>)
    ensures Settlement.Ggr(SingleBet(stake, odds, 5, channelId), channels) == 0.0
  {
  }

  function Leg(x: real): StoredLeg {
    StoredLeg(Some(x))
  }

  function FormLeg(x: real): AddBetForm.MultiEntryInput {
    AddBetForm.EmptyEntry("2025-01-01T12:00:00.000Z").(odds := AddBetForm.Num(x))
  }

  lemma ProductOfTwo(a: real, b: real)
    ensures Seqs.Product([a, b]) == a * b
  {
    assert [a, b][..1] == [a];
    assert [a][..0] == [];
    assert Seqs.Product([a]) == Seqs.Product([]) * a;
    assert Seqs.Product([a, b]) == Seqs.Product([a]) * b;
  }

  lemma ProductOfThree(a: real, b: real, c: real)
    ensures Seqs.Product([a, b, c]) == a * b * c
  {
    assert [a, b, c][..2] == [a, b];
    ProductOfTwo(a, b);
  }

  /** Legs at 1.5, 2.0 and 1.8 multiply to 5.4, both in the table and in the form. */
  lemma ThreeLegProduct()
    ensures Settlement.DisplayedOdds(
      Bet(1, "", 1, "", 10.0, 0.0, "", 5, "USD", MultiKind, Some([Leg(1.5), Leg(2.0), Leg(1.8)]))) == 5.4
    ensures AddBetForm.TotalOdds([FormLeg(1.5), FormLeg(2.0), FormLeg(1.8)]) == 5.4
  {
    var bet := Bet(1, "", 1, "", 10.0, 0.0, "", 5, "USD", MultiKind, Some([Leg(1.5), Leg(2.0), Leg(1.8)]));
    assert Settlement.HasLegs(bet);
    var fs := Settlement.LegFactors([Leg(1.5), Leg(2.0), Leg(1.8)]);
    assert fs == [1.5, 2.0, 1.8];
    ProductOfThree(1.5, 2.0, 1.8);
    var xs := AddBetForm.OddsValues([FormLeg(1.5), FormLeg(2.0), FormLeg(1.8)]);
    assert xs == [1.5, 2.0, 1.8];
  }

  /** With a zero leg the table still shows the other legs' product, the form shows 0. */
  lemma ZeroLegTableVersusForm()
    ensures Settlement.DisplayedOdds(
      Bet(1, "", 1, "", 10.0, 0.0, "", 5, "USD", MultiKind, Some([Leg(2.0), Leg(0.0)]))) == 2.0
    ensures AddBetForm.TotalOdds([FormLeg(2.0), FormLeg(0.0)]) == 0.0
  {
    var bet := Bet(1, "", 1, "", 10.0, 0.0, "", 5, "USD", MultiKind, Some([Leg(2.0), Leg(0.0)]));
    assert Settlement.HasLegs(bet);
    var fs := Settlement.LegFactors([Leg(2.0), Leg(0.0)]);
    assert fs == [2.0, 1.0];
    ProductOfTwo(2.0, 1.0);
    assert !AddBetForm.OddsTruthy([FormLeg(2.0), FormLeg(0.0)][1].odds);
  }

  /**
   A won Multi row for 50 with legs at 1.5 and 2.0 whose stored odds are 0 shows
   odds 3.0, but its GGR is taken from the stored `odds` field: it is -50, not the
   100 the displayed odds would give.
   */
  lemma MultiGgrUsesStoredOdds()
    ensures var bet := Bet(1, "", 1, "", 50.0, 0.0, "", 1, "USD", MultiKind, Some([Leg(1.5), Leg(2.0)]));
      && Settlement.DisplayedOdds(bet) == 3.0
      && Settlement.Ggr(bet, [ProviderChannel]) == -50.0
      && Settlement.GgrFor(1, 50.0, Settlement.DisplayedOdds(bet), Provider) == 100.0
  {
    var bet := Bet(1, "", 1, "", 50.0, 0.0, "", 1, "USD", MultiKind, Some([Leg(1.5), Leg(2.0)]));
    assert Settlement.HasLegs(bet);
    var fs := Settlement.LegFactors([Leg(1.5), Leg(2.0)]);
    assert fs == [1.5, 2.0];
    ProductOfTwo(1.5, 2.0);
  }
}
