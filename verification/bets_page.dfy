/**
 The bets page as a state machine: the rows loaded from the backend, the row
 selection, the channel and day filter, the draft bet and the Multi legs being
 entered. Each handler is its success path as a function from the old state to the
 new one; a backend response is a parameter, `None` when the request threw.
 */
module BetsPage {
  import opened Wrappers
  import opened Betting
  import Seqs
  import AddBetForm
  import Settlement

  /**
   The bet being entered: a bet without id or legs, plus the chosen pick. Stake and
   odds hold what their number inputs produce, which for odds includes `""`.
   */
  datatype Draft = Draft(
    date: string,
    channelId: int,
    matchName: string,
    stake: AddBetForm.NumberInput,
    odds: AddBetForm.NumberInput,
    betType: string,
    pick: string,
    result: int,
    currency: string,
    kind: string
  )

  datatype PageState = PageState(
    data: seq<Bet>,
    selection: map<int, bool>,  // row id -> checked
    selectedChannelId: int,
    selectedDate: string,       // yyyy-mm-dd
    draft: Draft,
    legs: seq<AddBetForm.MultiEntryInput>,
    mode: string,               // the form's Single/Multi choice
    loading: bool               // the bets request is pending
  )

  /** Appended to a picked day to form the stored timestamp of a new bet or leg. */
  const Noon: string := "T12:00:00.000Z"

  /** The page's own blank leg: like the form's, but without goal line or result. */
  function EmptyEntry(date: string): (e: AddBetForm.MultiEntryInput)
    ensures e == AddBetForm.EmptyEntry(date).(goals := None, result := AddBetForm.Unset)
  {
    AddBetForm.MultiEntryInput("", "", "", AddBetForm.Blank, None, date, AddBetForm.Unset)
  }

  /** The draft after a reset: nothing typed, channel and day as selected. */
  function DefaultDraft(channelId: int, day: string): (d: Draft)
    ensures d.date == day + Noon && d.channelId == channelId
    ensures d.stake == AddBetForm.Num(0.0) && d.odds == AddBetForm.Num(0.0) && d.result == 0
    ensures d.currency == "USD" && d.kind == SingleKind
    ensures d.matchName == "" && d.betType == "" && d.pick == ""
  {
    Draft(day + Noon, channelId, "", AddBetForm.Num(0.0), AddBetForm.Num(0.0), "", "", 0, "USD", SingleKind)
  }

  /**
   The state on first render: no rows, no channel, one blank leg for today, the
   form in Single mode and no request pending. The draft is stamped with the current instant until
   the mount effect (`Mount`) stamps it with noon of today.
   */
  function Initial(now: string, today: string): (st: PageState)
    ensures st.data == [] && st.selection == map[] && st.selectedChannelId == 0
    ensures st.selectedDate == today && st.mode == SingleKind && !st.loading
    ensures st.draft.channelId == 0 && st.draft.kind == SingleKind && st.draft.date == now
    ensures st.draft.stake == AddBetForm.Num(0.0) && st.draft.odds == AddBetForm.Num(0.0)
    ensures st.legs == [EmptyEntry(today + Noon)]
  {
    PageState([], map[], 0, today,
      Draft(now, 0, "", AddBetForm.Num(0.0), AddBetForm.Num(0.0), "", "", 0, "USD", SingleKind),
      [EmptyEntry(today + Noon)], SingleKind, false)
  }

  /** The keys of a bet row. */
  datatype BetField =
    | IdField | DateField | ChannelIdField | MatchField | StakeField | OddsField
    | BetTypeField | ResultField | CurrencyField | KindField | MultiEntriesField

  predicate IsNumeric(f: BetField) {
    f == StakeField || f == OddsField || f == ResultField || f == ChannelIdField
  }

  datatype Parsed = TextValue(text: string) | NumberValue(number: real)

  /**
   Reads an edited cell's text for field `field`: the numeric fields get the
   number `parse` reads, or 0 when it reads none; every other field keeps the text.
   */
  function ParseValue(field: BetField, value: string, parse: string -> Option<real>): (r: Parsed)
    ensures r.NumberValue? <==> IsNumeric(field)
    ensures r.TextValue? ==> r.text == value
    ensures IsNumeric(field) && parse(value).Some? ==> r.number == parse(value).value
    ensures IsNumeric(field) && parse(value).None? ==> r.number == 0.0
  {
    if IsNumeric(field) then
      match parse(value)
      case Some(x) => NumberValue(x)
      case None => NumberValue(0.0)
    else
      TextValue(value)
  }

  /** A numeric field holds the parsed number, with 0 standing in for NaN. */
  lemma NumericFieldDefaultsToZero(field: BetField, value: string, parse: string -> Option<real>)
    requires IsNumeric(field)
    ensures ParseValue(field, value, parse) == NumberValue(parse(value).GetOr(0.0))
  {
  }

  /** The field matters only through whether it is numeric. */
  lemma ParseValueDependsOnKind(f: BetField, g: BetField, value: string, parse: string -> Option<real>)
    requires IsNumeric(f) == IsNumeric(g)
    ensures ParseValue(f, value, parse) == ParseValue(g, value, parse)
  {
  }

  /** `s.slice(0, 10)`: the first ten characters, or all of a shorter string. */
  function Day(s: string): (d: string)
    ensures |d| == if |s| < 10 then |s| else 10
    ensures d <= s
  {
    if |s| <= 10 then s else s[..10]
  }

  /** A row shows when it belongs to the selected channel and its date falls on the selected day. */
  predicate Visible(b: Bet, channelId: int, day: string) {
    b.channelId == channelId && Day(b.date) == day
  }

  /** The rows the table shows, in the order they were loaded. */
  function FilteredBets(data: seq<Bet>, channelId: int, day: string): (r: seq<Bet>)
    ensures |r| <= |data|
    ensures forall i :: 0 <= i < |r| ==> r[i] in data && Visible(r[i], channelId, day)
    ensures forall i :: 0 <= i < |data| && Visible(data[i], channelId, day) ==> data[i] in r
  {
    Seqs.Filter((b: Bet) => Visible(b, channelId, day), data)
  }

  /** Filtering loaded rows and rows appended later keeps both groups, in order. */
  lemma FilteredBetsKeepOrder(a: seq<Bet>, b: seq<Bet>, channelId: int, day: string)
    ensures FilteredBets(a + b, channelId, day) == FilteredBets(a, channelId, day) + FilteredBets(b, channelId, day)
  {
    Seqs.FilterConcat((x: Bet) => Visible(x, channelId, day), a, b);
  }

  /** A bet stamped at noon of the selected day, in the selected channel, is shown. */
  lemma NoonOfDayIsVisible(b: Bet, channelId: int, day: string)
    requires |day| == 10
    requires b.channelId == channelId && b.date == day + Noon
    ensures Visible(b, channelId, day)
  {
    assert (day + Noon)[..10] == day;
  }

  /** An in-cell edit: the field it writes and the value it writes there. */
  datatype BetEdit =
    | EditMatch(text: string)
    | EditStake(amount: real)
    | EditBetType(text: string)
    | EditResult(code: int)
    | EditCurrency(text: string)
    | EditKind(text: string)

  function FieldOf(e: BetEdit): BetField {
    match e
    case EditMatch(_) => MatchField
    case EditStake(_) => StakeField
    case EditBetType(_) => BetTypeField
    case EditResult(_) => ResultField
    case EditCurrency(_) => CurrencyField
    case EditKind(_) => KindField
  }

  /** `a` and `b` hold the same value in field `f`. */
  predicate AgreeOn(a: Bet, b: Bet, f: BetField) {
    match f
    case IdField => a.id == b.id
    case DateField => a.date == b.date
    case ChannelIdField => a.channelId == b.channelId
    case MatchField => a.matchName == b.matchName
    case StakeField => a.stake == b.stake
    case OddsField => a.odds == b.odds
    case BetTypeField => a.betType == b.betType
    case ResultField => a.result == b.result
    case CurrencyField => a.currency == b.currency
    case KindField => a.kind == b.kind
    case MultiEntriesField => a.multiEntries == b.multiEntries
  }

  predicate SameExcept(a: Bet, b: Bet, f: BetField) {
    forall g: BetField :: g != f ==> AgreeOn(a, b, g)
  }

  /** `{ ...bet, [field]: value }`: the row sent to the backend after an edit. */
  function ApplyEdit(bet: Bet, e: BetEdit): (r: Bet)
    ensures SameExcept(bet, r, FieldOf(e))
    ensures r.id == bet.id
    ensures e.EditMatch? ==> r.matchName == e.text
    ensures e.EditStake? ==> r.stake == e.amount
    ensures e.EditBetType? ==> r.betType == e.text
    ensures e.EditResult? ==> r.result == e.code
    ensures e.EditCurrency? ==> r.currency == e.text
    ensures e.EditKind? ==> r.kind == e.text
  {
    match e
    case EditMatch(t) => bet.(matchName := t)
    case EditStake(x) => bet.(stake := x)
    case EditBetType(t) => bet.(betType := t)
    case EditResult(c) => bet.(result := c)
    case EditCurrency(t) => bet.(currency := t)
    case EditKind(t) => bet.(kind := t)
  }

  /** Every row carrying the id of `updated` becomes `updated`; the others stay. */
  function ReplaceById(data: seq<Bet>, updated: Bet): (r: seq<Bet>)
    ensures |r| == |data|
    ensures forall i :: 0 <= i < |data| ==> r[i].id == data[i].id
    ensures forall i :: 0 <= i < |data| && data[i].id == updated.id ==> r[i] == updated
    ensures forall i :: 0 <= i < |data| && data[i].id != updated.id ==> r[i] == data[i]
  {
    seq(|data|, i requires 0 <= i < |data| => if data[i].id == updated.id then updated else data[i])
  }

  /** The state after `handleEdit`, given the backend's answer to the update. */
  function HandleEdit(st: PageState, response: Option<Bet>): (r: PageState)
    ensures response.None? ==> r == st
    ensures response.Some? ==> r == st.(data := ReplaceById(st.data, response.value))
  {
    match response
    case None => st
    case Some(updated) => st.(data := ReplaceById(st.data, updated))
  }

  predicate UniqueIds(data: seq<Bet>) {
    forall i, j :: 0 <= i < |data| && 0 <= j < |data| && data[i].id == data[j].id ==> i == j
  }

  /**
   When ids are unique and the backend echoes the edited row, the edit replaces
   exactly the edited row and nothing else.
   */
  lemma EditReplacesOneRow(data: seq<Bet>, k: int, e: BetEdit)
    requires UniqueIds(data)
    requires 0 <= k < |data|
    ensures ReplaceById(data, ApplyEdit(data[k], e)) == data[k := ApplyEdit(data[k], e)]
    ensures UniqueIds(ReplaceById(data, ApplyEdit(data[k], e)))
  {
  }

  /**
   The update route replies with the row without its legs. After such a reply the
   edited row's odds cell shows the stored odds, no longer a leg product.
   */
  lemma LeglessReplyShowsStoredOdds(st: PageState, updated: Bet, i: int)
    requires updated.multiEntries.None?
    requires 0 <= i < |st.data| && st.data[i].id == updated.id
    ensures Settlement.DisplayedOdds(HandleEdit(st, Some(updated)).data[i]) == updated.odds
  {
  }

  /** Applying the same backend answer twice changes nothing more. */
  lemma ReplaceByIdIdempotent(data: seq<Bet>, updated: Bet)
    ensures ReplaceById(ReplaceById(data, updated), updated) == ReplaceById(data, updated)
  {
  }

  /** The ids of the checked rows. */
  function SelectedIds(selection: map<int, bool>): (ids: set<int>)
    ensures forall id :: id in ids <==> id in selection && selection[id]
  {
    set id | id in selection && selection[id]
  }

  /** With no row ever checked, no id is selected. */
  lemma NothingSelectedInitially()
    ensures SelectedIds(map[]) == {}
  {
  }

  /** Checking a row adds its id to the selected ids, and nothing else. */
  lemma CheckRow(selection: map<int, bool>, id: int)
    ensures SelectedIds(selection[id := true]) == SelectedIds(selection) + {id}
  {
  }

  /** Unchecking a row removes its id from the selected ids, and nothing else. */
  lemma UncheckRow(selection: map<int, bool>, id: int)
    ensures SelectedIds(selection[id := false]) == SelectedIds(selection) - {id}
  {
  }

  /**
   The state after `handleDelete`: checked rows leave the list, whether or not
   their delete request succeeded, and the selection is cleared.
   */
  function HandleDelete(st: PageState): (r: PageState)
    ensures r.selection == map[]
    ensures |r.data| <= |st.data|
    ensures forall i :: 0 <= i < |r.data| ==> r.data[i] in st.data && r.data[i].id !in SelectedIds(st.selection)
    ensures forall i :: 0 <= i < |st.data| && st.data[i].id !in SelectedIds(st.selection) ==> st.data[i] in r.data
    ensures r.(data := st.data, selection := st.selection) == st
  {
    var ids := SelectedIds(st.selection);
    st.(data := Seqs.Filter((b: Bet) => b.id !in ids, st.data), selection := map[])
  }

  /**
   Deletion works row by row: deleting from a concatenation deletes from each part
   and keeps the parts in their order. With the membership clauses of
   `HandleDelete` this makes the kept rows exactly the unselected rows, in order.
   */
  lemma DeleteKeepsOrder(st: PageState, a: seq<Bet>, b: seq<Bet>)
    ensures HandleDelete(st.(data := a + b)).data
         == HandleDelete(st.(data := a)).data + HandleDelete(st.(data := b)).data
  {
    var ids := SelectedIds(st.selection);
    Seqs.FilterConcat((x: Bet) => x.id !in ids, a, b);
  }

  /** With nothing checked, deletion keeps every row in place. */
  lemma DeleteWithoutSelection(st: PageState)
    requires forall id :: id in st.selection ==> !st.selection[id]
    ensures HandleDelete(st).data == st.data
  {
    var ids := SelectedIds(st.selection);
    assert forall i :: 0 <= i < |st.data| ==> st.data[i].id !in ids;
    Seqs.FilterKeepsAll((b: Bet) => b.id !in ids, st.data);
  }

  /** Deleting a second time does nothing: the first delete cleared the selection. */
  lemma DeleteIdempotent(st: PageState)
    ensures HandleDelete(HandleDelete(st)) == HandleDelete(st)
  {
    DeleteWithoutSelection(HandleDelete(st));
  }

  /**
   The state after `handleAdd`, given the backend's answer to the create request.
   A draft without a channel is refused and nothing changes; so does a failed
   request. Otherwise the created bet goes at the end, the legs shrink back to one
   blank leg and the draft is reset.
   */
  function HandleAdd(st: PageState, created: Option<Bet>): (r: PageState)
    ensures st.draft.channelId == 0 || created.None? ==> r == st
    ensures st.draft.channelId != 0 && created.Some? ==>
      && r.data == st.data + [created.value]
      && r.legs == [EmptyEntry(st.selectedDate + Noon)]
      && r.draft == DefaultDraft(st.selectedChannelId, st.selectedDate)
      && r.selection == st.selection
      && r.selectedChannelId == st.selectedChannelId
      && r.selectedDate == st.selectedDate
      && r.mode == st.mode
  {
    if st.draft.channelId == 0 then st
    else
      match created
      case None => st
      case Some(b) =>
        st.(data := st.data + [b],
            legs := [EmptyEntry(st.selectedDate + Noon)],
            draft := DefaultDraft(st.selectedChannelId, st.selectedDate))
  }

  /**
   A created bet stamped at noon of the selected day in the selected channel shows
   as the last row of the table.
   */
  lemma AddedBetIsShownLast(st: PageState, b: Bet)
    requires st.draft.channelId != 0
    requires |st.selectedDate| == 10
    requires b.channelId == st.selectedChannelId && b.date == st.selectedDate + Noon
    ensures var shown := FilteredBets(HandleAdd(st, Some(b)).data, st.selectedChannelId, st.selectedDate);
      |shown| > 0 && shown[|shown| - 1] == b
  {
    NoonOfDayIsVisible(b, st.selectedChannelId, st.selectedDate);
    FilteredBetsKeepOrder(st.data, [b], st.selectedChannelId, st.selectedDate);
    assert FilteredBets([b], st.selectedChannelId, st.selectedDate) == [b];
  }

  /** The page's leg list is never empty: it starts with one leg and every handler keeps one. */
  predicate HasLeg(st: PageState) {
    |st.legs| >= 1
  }

  /**
   The effect that keeps the draft on the selected channel and day: it sets the
   draft's channel and stamps it with noon of the selected day.
   */
  function SyncDraft(st: PageState): (r: PageState)
    ensures r.draft == st.draft.(channelId := st.selectedChannelId, date := st.selectedDate + Noon)
    ensures r.(draft := st.draft) == st
  {
    st.(draft := st.draft.(channelId := st.selectedChannelId, date := st.selectedDate + Noon))
  }

  /**
   Choosing a channel and day in the page's pickers. The draft is re-stamped only
   when one of them actually changes, since the effect runs only then.
   */
  function Choose(st: PageState, channelId: int, day: string): (r: PageState)
    ensures channelId == st.selectedChannelId && day == st.selectedDate ==> r == st
    ensures r.selectedChannelId == channelId && r.selectedDate == day
    ensures channelId != st.selectedChannelId || day != st.selectedDate ==>
      r.draft == st.draft.(channelId := channelId, date := day + Noon)
    ensures r.data == st.data && r.legs == st.legs && r.mode == st.mode && r.selection == st.selection
  {
    if channelId == st.selectedChannelId && day == st.selectedDate then st
    else SyncDraft(st.(selectedChannelId := channelId, selectedDate := day))
  }

  /**
   The channels arrive: the first channel becomes the selected one unless one is
   selected already, and the draft takes the first channel and noon of the selected day.
   */
  function ChannelsLoaded(st: PageState, channels: seq<Channel>): (r: PageState)
    ensures |channels| == 0 ==> r == st
    ensures |channels| > 0 ==>
      && r.selectedChannelId == (if st.selectedChannelId != 0 then st.selectedChannelId else channels[0].id)
      && r.draft == st.draft.(channelId := channels[0].id, date := st.selectedDate + Noon)
      && r.(selectedChannelId := st.selectedChannelId, draft := st.draft) == st
  {
    if |channels| == 0 then st
    else
      var chosen := if st.selectedChannelId != 0 then st.selectedChannelId else channels[0].id;
      // when the selection changes, the sync effect re-sets the draft's channel to the same id
      st.(selectedChannelId := chosen,
          draft := st.draft.(channelId := channels[0].id, date := st.selectedDate + Noon))
  }

  /** An input of the draft bet in the entry form. */
  datatype DraftInput =
    | TypeStake(text: string)
    | TypeCurrency(text: string)
    | TypeMatch(text: string)
    | ChooseBetType(text: string)
    | ChoosePick(text: string)
    | FocusOdds
    | BlurOdds
    | TypeOdds(text: string)
    | ChooseDay(day: string)
    | ChooseResult(code: int)

  /**
   The draft after one input: each input writes its own field. The odds input shows
   `""` for 0, clears a 0 on focus, and writes 0 back on blur when it shows nothing.
   No input touches the channel or the kind.
   */
  function EditDraft(d: Draft, input: DraftInput, parse: string -> Option<real>): (r: Draft)
    ensures r.kind == d.kind && r.channelId == d.channelId
    ensures input.TypeStake? ==> r == d.(stake := AddBetForm.ReadNumber(parse(input.text)))
    ensures input.TypeCurrency? ==> r == d.(currency := input.text)
    ensures input.TypeMatch? ==> r == d.(matchName := input.text)
    ensures input.ChooseBetType? ==> r == d.(betType := input.text)
    ensures input.ChoosePick? ==> r == d.(pick := input.text)
    ensures input.FocusOdds? ==>
      r == (if d.odds == AddBetForm.Num(0.0) then d.(odds := AddBetForm.Blank) else d)
    ensures input.BlurOdds? ==>
      r == (if d.odds == AddBetForm.Blank || d.odds == AddBetForm.Num(0.0) then d.(odds := AddBetForm.Num(0.0)) else d)
    ensures input.BlurOdds? ==> r.odds != AddBetForm.Blank
    ensures input.TypeOdds? && input.text == "" ==> r == d.(odds := AddBetForm.Blank)
    ensures input.TypeOdds? && input.text != "" ==> r == d.(odds := AddBetForm.ReadNumber(parse(input.text)))
    ensures input.ChooseDay? ==> r == d.(date := input.day + Noon)
    ensures input.ChooseResult? ==> r == d.(result := input.code)
  {
    match input
    case TypeStake(t) => d.(stake := AddBetForm.ReadNumber(parse(t)))
    case TypeCurrency(t) => d.(currency := t)
    case TypeMatch(t) => d.(matchName := t)
    case ChooseBetType(t) => d.(betType := t)
    case ChoosePick(t) => d.(pick := t)
    case FocusOdds => if d.odds == AddBetForm.Num(0.0) then d.(odds := AddBetForm.Blank) else d
    case BlurOdds =>
      // the input shows "" exactly for the text "" and for the number 0
      if d.odds == AddBetForm.Blank || d.odds == AddBetForm.Num(0.0) then d.(odds := AddBetForm.Num(0.0)) else d
    case TypeOdds(t) => d.(odds := if t == "" then AddBetForm.Blank else AddBetForm.ReadNumber(parse(t)))
    case ChooseDay(day) => d.(date := day + Noon)
    case ChooseResult(c) => d.(result := c)
  }

  /** A number input's value as a JavaScript condition: 0, `""` and NaN are false. */
  predicate Truthy(n: AddBetForm.NumberInput) {
    n.Num? && n.value != 0.0
  }

  /**
   Whether the add button can be clicked. In Single mode it is disabled only while
   the bets load; in Multi mode also at a stake of 0, `""` or NaN, or with no legs.
   */
  predicate AddEnabled(st: PageState) {
    && !st.loading
    && (st.mode != SingleKind ==> Truthy(st.draft.stake) && |st.legs| > 0)
  }

  /** Whether the delete button can be clicked: some row is checked and the bets are not loading. */
  predicate DeleteEnabled(st: PageState) {
    SelectedIds(st.selection) != {} && !st.loading
  }

  /**
   A page event: the mount and its two requests, the pickers, the entry form and
   the three handlers. No element of the page checks a row, so there is no event
   for that.
   */
  datatype PageEvent =
    | Mount
    | Loaded(bets: Option<seq<Bet>>)
    | LoadedChannels(channels: seq<Channel>)
    | PickChannel(id: int)
    | PickDay(day: string)
    | ChooseMode(mode: string)
    | InputDraft(input: DraftInput)
    | Legs(action: AddBetForm.LegAction)
    | Edit(response: Option<Bet>)
    | Delete
    | Add(created: Option<Bet>)

  /**
   One page event. Mounting starts the bets request and runs the sync effect; the
   reply, or its failure, ends the loading. The form's add button appends a blank
   leg dated like the draft, whatever date the action carries. A click on a
   disabled button does nothing. No event sets the draft's kind.
   */
  function Apply(st: PageState, ev: PageEvent, parse: string -> Option<real>): (r: PageState)
    ensures HasLeg(st) ==> HasLeg(r)
    ensures st.draft.kind == SingleKind ==> r.draft.kind == SingleKind
    ensures st.selection == map[] ==> r.selection == map[]
    ensures ev.Legs? && ev.action.AddLeg? ==> r.legs == AddBetForm.AddEntry(st.legs, st.draft.date)
    ensures !ev.ChooseMode? ==> r.mode == st.mode
    ensures ev.Mount? ==> r.loading
    ensures ev.Loaded? ==> !r.loading && r.data == (if ev.bets.Some? then ev.bets.value else st.data)
    ensures !ev.Mount? && !ev.Loaded? ==> r.loading == st.loading
    ensures ev.Add? && !AddEnabled(st) ==> r == st
    ensures ev.Add? && AddEnabled(st) ==> r == HandleAdd(st, ev.created)
    ensures ev.Delete? && !DeleteEnabled(st) ==> r == st
  {
    match ev
    case Mount => SyncDraft(st).(loading := true)
    case Loaded(bets) =>
      (if bets.Some? then st.(data := bets.value) else st).(loading := false)
    case LoadedChannels(channels) => ChannelsLoaded(st, channels)
    case PickChannel(id) => Choose(st, id, st.selectedDate)
    case PickDay(day) => Choose(st, st.selectedChannelId, day)
    case ChooseMode(m) => st.(mode := m)
    case InputDraft(input) => st.(draft := EditDraft(st.draft, input, parse))
    case Legs(a) =>
      var a' := if a.AddLeg? then AddBetForm.AddLeg(st.draft.date) else a;
      st.(legs := AddBetForm.Step(st.legs, a', parse))
    case Edit(response) => HandleEdit(st, response)
    case Delete => if DeleteEnabled(st) then HandleDelete(st) else st
    case Add(created) => if AddEnabled(st) then HandleAdd(st, created) else st
  }

  function ApplyAll(st: PageState, evs: seq<PageEvent>, parse: string -> Option<real>): (r: PageState)
    ensures HasLeg(st) ==> HasLeg(r)
    ensures st.draft.kind == SingleKind ==> r.draft.kind == SingleKind
    ensures st.selection == map[] ==> r.selection == map[]
    decreases |evs|
  {
    if |evs| == 0 then st else ApplyAll(Apply(st, evs[0], parse), evs[1..], parse)
  }

  /** From the initial page, no sequence of events empties the leg list. */
  lemma LegsNeverEmpty(now: string, today: string, evs: seq<PageEvent>, parse: string -> Option<real>)
    ensures |ApplyAll(Initial(now, today), evs, parse).legs| >= 1
  {
  }

  /**
   The draft that `handleAdd` sends is of kind "Single" in every reachable state:
   no event, including the form's Single/Multi choice and every draft input, sets
   its kind, and the draft has no legs field.
   */
  lemma DraftStaysSingle(now: string, today: string, evs: seq<PageEvent>, parse: string -> Option<real>)
    ensures ApplyAll(Initial(now, today), evs, parse).draft.kind == SingleKind
  {
  }

  /**
   No row is ever checked, so the delete button stays disabled and `handleDelete`
   is never called from the page.
   */
  lemma DeleteNeverEnabled(now: string, today: string, evs: seq<PageEvent>, parse: string -> Option<real>)
    ensures ApplyAll(Initial(now, today), evs, parse).selection == map[]
    ensures !DeleteEnabled(ApplyAll(Initial(now, today), evs, parse))
  {
    NothingSelectedInitially();
  }

  /**
   The add is reachable in Multi mode: after the mount, the bets' arrival, a channel
   pick, the switch to Multi and a non-zero stake, the add button is enabled and
   appends the created bet, while the draft it sends is still of kind "Single".
   */
  lemma MultiModeAddSendsSingle(now: string, today: string, t: string, x: real, b: Bet, parse: string -> Option<real>)
    requires parse(t) == Some(x) && x != 0.0
    ensures var before := ApplyAll(Initial(now, today),
        [Mount, Loaded(Some([])), PickChannel(7), ChooseMode(MultiKind), InputDraft(TypeStake(t))], parse);
      && before.mode == MultiKind
      && before.draft.channelId == 7
      && before.draft.stake == AddBetForm.Num(x)
      && before.draft.kind == SingleKind
      && AddEnabled(before)
      && Apply(before, Add(Some(b)), parse).data == [b]
  {
    var evs := [Mount, Loaded(Some([])), PickChannel(7), ChooseMode(MultiKind), InputDraft(TypeStake(t))];
    var st0 := Initial(now, today);
    var st1 := Apply(st0, evs[0], parse);
    var st2 := Apply(st1, evs[1], parse);
    var st3 := Apply(st2, evs[2], parse);
    var st4 := Apply(st3, evs[3], parse);
    var st5 := Apply(st4, evs[4], parse);
    assert ApplyAll(st5, [], parse) == st5;
    assert ApplyAll(st4, evs[4..], parse) == st5;
    assert ApplyAll(st3, evs[3..], parse) == st5;
    assert ApplyAll(st2, evs[2..], parse) == st5;
    assert ApplyAll(st1, evs[1..], parse) == st5;
    assert ApplyAll(st0, evs, parse) == st5;
  }
}
