/**
 The records the pages exchange with the backend: a channel with its role, and a
 bet with its optional list of Multi legs as the backend returns them.
 */
module Betting {
  import opened Wrappers

  /** The role of a channel; it decides the sign of the revenue figure. */
  datatype Role = Provider | Bettor

  datatype Channel = Channel(id: int, name: string, role: Role)

  /**
   A Multi leg as stored: only its odds are read by the pages. `None` stands for a
   value that `Number(...)` turns into 0 or NaN (`null`, absent).
   */
  datatype StoredLeg = StoredLeg(odds: Option<real>)

  /**
   A bet row. `multiEntries` is `None` when the field is absent (it is filled only
   for Multi bets); `kind` is the free string "Single" or "Multi".
   */
  datatype Bet = Bet(
    id: int,
    date: string,
    channelId: int,
    matchName: string,  // the `match` field (a Dafny keyword)
    stake: real,
    odds: real,
    betType: string,
    result: int,
    currency: string,
    kind: string,
    multiEntries: Option<seq<StoredLeg>>
  )

  const MultiKind: string := "Multi"
  const SingleKind: string := "Single"
}
