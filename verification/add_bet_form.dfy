/**
 The leg editor of the bet entry form: the list of Multi legs being typed in, the
 operations that append, remove and edit a leg, and the total odds the form shows.
 */
module AddBetForm {
  import opened Wrappers
  import Seqs

  /** The value behind a number input: still `""`, a number, or what `Number(...)` made of bad text. */
  datatype NumberInput = Blank | Num(value: real) | NotANumber

  /**
   The result input of a leg. The form starts it at the number 0, but an edit
   stores the selected option's text; the page's own blank leg has no result.
   */
  datatype LegResult = Unset | Code(code: int) | Text(text: string)

  datatype MultiEntryInput = MultiEntryInput(
    matchName: string,  // the `match` field (a Dafny keyword)
    betType: string,
    pick: string,
    odds: NumberInput,
    goals: Option<string>,
    date: string,
    result: LegResult
  )

  /** The keys of a leg an edit can address. */
  datatype EntryField = MatchField | BetTypeField | PickField | OddsField | GoalsField | DateField | ResultField

  /** `a` and `b` hold the same value in field `f`. */
  predicate AgreeOn(a: MultiEntryInput, b: MultiEntryInput, f: EntryField) {
    match f
    case MatchField => a.matchName == b.matchName
    case BetTypeField => a.betType == b.betType
    case PickField => a.pick == b.pick
    case OddsField => a.odds == b.odds
    case GoalsField => a.goals == b.goals
    case DateField => a.date == b.date
    case ResultField => a.result == b.result
  }

  /** `a` and `b` differ at most in field `f`. */
  predicate SameExcept(a: MultiEntryInput, b: MultiEntryInput, f: EntryField) {
    forall g: EntryField :: g != f ==> AgreeOn(a, b, g)
  }

  /** A blank leg for the given date. */
  function EmptyEntry(date: string): (e: MultiEntryInput)
    ensures e.matchName == "" && e.betType == "" && e.pick == "" && e.odds == Blank
    ensures e.goals == Some("") && e.date == date && e.result == Code(0)
  {
    MultiEntryInput("", "", "", Blank, Some(""), date, Code(0))
  }

  /** The add button: one blank leg, dated like the draft bet, goes at the end. */
  function AddEntry(entries: seq<MultiEntryInput>, date: string): (r: seq<MultiEntryInput>)
    ensures |r| == |entries| + 1
    ensures r[..|entries|] == entries
    ensures r[|entries|] == EmptyEntry(date)
  {
    entries + [EmptyEntry(date)]
  }

  /** The delete button: keeps every leg whose position is not `idx`. */
  function RemoveEntry(entries: seq<MultiEntryInput>, idx: int): (r: seq<MultiEntryInput>)
    ensures 0 <= idx < |entries| ==> r == entries[..idx] + entries[idx + 1..]
    ensures !(0 <= idx < |entries|) ==> r == entries
    decreases |entries|
  {
    if |entries| == 0 then []
    else (if idx == 0 then [] else [entries[0]]) + RemoveEntry(entries[1..], idx - 1)
  }

  /** What `Number(value)` stores: the number read, or NaN. */
  function ReadNumber(parsed: Option<real>): NumberInput {
    match parsed
    case Some(x) => Num(x)
    case None => NotANumber
  }

  /**
   Writes `value` into field `field` of one leg: the odds field receives the number
   `parse` reads from it, every other field the text itself.
   */
  function SetField(e: MultiEntryInput, field: EntryField, value: string, parse: string -> Option<real>): (r: MultiEntryInput)
    ensures SameExcept(e, r, field)
    ensures field == OddsField ==> r.odds == ReadNumber(parse(value))
    ensures field == MatchField ==> r.matchName == value
    ensures field == BetTypeField ==> r.betType == value
    ensures field == PickField ==> r.pick == value
    ensures field == GoalsField ==> r.goals == Some(value)
    ensures field == DateField ==> r.date == value
    ensures field == ResultField ==> r.result == Text(value)
  {
    match field
    case MatchField => e.(matchName := value)
    case BetTypeField => e.(betType := value)
    case PickField => e.(pick := value)
    case OddsField => e.(odds := ReadNumber(parse(value)))
    case GoalsField => e.(goals := Some(value))
    case DateField => e.(date := value)
    case ResultField => e.(result := Text(value))
  }

  /** An input change in row `idx`: that leg gets the new field value, every other leg stays. */
  function EntryChange(entries: seq<MultiEntryInput>, idx: int, field: EntryField, value: string,
                       parse: string -> Option<real>): (r: seq<MultiEntryInput>)
    ensures |r| == |entries|
    ensures forall i :: 0 <= i < |entries| && i != idx ==> r[i] == entries[i]
    ensures 0 <= idx < |entries| ==> r[idx] == SetField(entries[idx], field, value, parse)
    ensures 0 <= idx < |entries| ==> SameExcept(entries[idx], r[idx], field)
  {
    seq(|entries|, i requires 0 <= i < |entries| =>
      if i == idx then SetField(entries[i], field, value, parse) else entries[i])
  }

  /** `!!e.odds`: the odds input is a non-zero number. */
  predicate OddsTruthy(o: NumberInput) {
    o.Num? && o.value != 0.0
  }

  /**
   The factor the total's `reduce` takes from a leg: its number, and 1 for the
   text `""`. The product is formed only when every leg is truthy, so neither the
   blank nor the NaN case is reached there; NaN is given 1 only to make the
   function total.
   */
  function OddsFactor(o: NumberInput): real {
    match o
    case Num(x) => x
    case Blank => 1.0
    case NotANumber => 1.0
  }

  predicate AllTruthy(entries: seq<MultiEntryInput>) {
    forall i :: 0 <= i < |entries| ==> OddsTruthy(entries[i].odds)
  }

  /** The odds the legs carry, in order; meaningful when every leg holds a number. */
  function OddsValues(entries: seq<MultiEntryInput>): (xs: seq<real>)
    ensures |xs| == |entries|
    ensures forall i :: 0 <= i < |entries| ==> xs[i] == OddsFactor(entries[i].odds)
  {
    seq(|entries|, i requires 0 <= i < |entries| => OddsFactor(entries[i].odds))
  }

  /**
   The total odds of the legs: their product when there is at least one leg and
   every leg has truthy odds, otherwise 0. The total is non-zero exactly then.
   */
  function TotalOdds(entries: seq<MultiEntryInput>): (t: real)
    ensures t != 0.0 <==> |entries| > 0 && AllTruthy(entries)
    ensures |entries| > 0 && AllTruthy(entries) ==>
      t == Seqs.Product(OddsValues(entries)) && forall i :: 0 <= i < |entries| ==> entries[i].odds == Num(OddsValues(entries)[i])
  {
    if |entries| > 0 && AllTruthy(entries) then
      var xs := OddsValues(entries);
      Seqs.ProductZeroIff(xs);
      Seqs.Product(xs)
    else
      0.0
  }

  /** The two markets that ask for a goal line. */
  const GoalLineMarkets: set<string> := {"Over/Under", "Team Total Over/Under"}

  /** Whether a leg of market `betType` shows the goal-line input. */
  function NeedsGoalsField(betType: string): (needs: bool)
    ensures needs <==> betType in GoalLineMarkets
  {
    betType == "Over/Under" || betType == "Team Total Over/Under"
  }

  /**
   Whether a leg shows the goal-line input changes only through its market: an
   edit of any other field leaves that decision unchanged for every leg.
   */
  lemma GoalsFieldFollowsMarket(entries: seq<MultiEntryInput>, idx: int, field: EntryField, value: string,
                                parse: string -> Option<real>)
    requires field != BetTypeField
    ensures forall i :: 0 <= i < |entries| ==>
      NeedsGoalsField(EntryChange(entries, idx, field, value, parse)[i].betType) == NeedsGoalsField(entries[i].betType)
  {
  }

  /** Choosing a market decides the goal-line input of that leg by the market alone. */
  lemma GoalsFieldOfChosenMarket(entries: seq<MultiEntryInput>, idx: int, market: string,
                                 parse: string -> Option<real>)
    requires 0 <= idx < |entries|
    ensures NeedsGoalsField(EntryChange(entries, idx, BetTypeField, market, parse)[idx].betType)
        <==> market in GoalLineMarkets
  {
  }

  /** What a user can do to the leg list through the form's buttons and inputs. */
  datatype LegAction =
    | AddLeg(date: string)
    | RemoveLeg(idx: int)
    | ChangeLeg(idx: int, field: EntryField, value: string)

  /**
   One user action on the leg list. The delete button is disabled while a single
   leg remains, so a removal then does nothing.
   */
  function Step(entries: seq<MultiEntryInput>, a: LegAction, parse: string -> Option<real>): (r: seq<MultiEntryInput>)
    ensures |entries| >= 1 ==> |r| >= 1
    ensures a.AddLeg? ==> |r| == |entries| + 1
    ensures a.ChangeLeg? ==> |r| == |entries|
  {
    match a
    case AddLeg(date) => AddEntry(entries, date)
    case RemoveLeg(idx) => if |entries| == 1 then entries else RemoveEntry(entries, idx)
    case ChangeLeg(idx, field, value) => EntryChange(entries, idx, field, value, parse)
  }

  /** A sequence of user actions, applied in order. */
  function Run(entries: seq<MultiEntryInput>, actions: seq<LegAction>, parse: string -> Option<real>): (r: seq<MultiEntryInput>)
    ensures |entries| >= 1 ==> |r| >= 1
    decreases |actions|
  {
    if |actions| == 0 then entries
    else Run(Step(entries, actions[0], parse), actions[1..], parse)
  }

  /** Removing the leg just added gives back the list as it was. */
  lemma RemoveUndoesAdd(entries: seq<MultiEntryInput>, date: string)
    ensures RemoveEntry(AddEntry(entries, date), |entries|) == entries
  {
  }

  /** Writing a text field's current value back leaves the list unchanged. */
  lemma RewriteIsIdentity(entries: seq<MultiEntryInput>, idx: int, parse: string -> Option<real>)
    requires 0 <= idx < |entries|
    ensures EntryChange(entries, idx, MatchField, entries[idx].matchName, parse) == entries
    ensures EntryChange(entries, idx, BetTypeField, entries[idx].betType, parse) == entries
    ensures EntryChange(entries, idx, PickField, entries[idx].pick, parse) == entries
    ensures EntryChange(entries, idx, DateField, entries[idx].date, parse) == entries
  {
  }

  /** The same change applied twice has the effect of applying it once. */
  lemma EntryChangeIdempotent(entries: seq<MultiEntryInput>, idx: int, field: EntryField, value: string,
                              parse: string -> Option<real>)
    ensures EntryChange(EntryChange(entries, idx, field, value, parse), idx, field, value, parse)
         == EntryChange(entries, idx, field, value, parse)
  {
  }

  /** A freshly added blank leg sets the total back to 0. */
  lemma AddedLegZeroesTotal(entries: seq<MultiEntryInput>, date: string)
    ensures TotalOdds(AddEntry(entries, date)) == 0.0
  {
    assert !OddsTruthy(AddEntry(entries, date)[|entries|].odds);
  }
}
