# Match kanban board — a Dafny model

The seller's kanban board of the group-buying app shows match groups (buyers'
lobbies for one deal) in four columns: `lobby`, `pending_payment`, `ready` and
`completed`. Each column is the fetched list filtered by one rule over three
inputs: the group's status, with an empty or absent status defaulted to
`pending`; its capacity `max_group_size`, with an absent or zero capacity
defaulted to 2; and whether its member count has reached that capacity. Each
group is drawn as a card with one avatar slot per unit of capacity. The slots
are filled with the members in order. A paid member gets a green border, an
unpaid one a gray border, and an empty slot a dashed one.

The model has three modules:

- `Matches` (`matches.dfy`): the records and the two defaults.
- `Kanban` (`kanban.dfy`): the column classifier, the per-column filter and
  the outcome of the single fetch.
- `Card` (`card.dfy`): the card's slot layout, borders, initials, captions and
  progress line.

The classifier and the card layout are pure: the component filters and maps
arrays without mutating them. The only state is the board's two `useState`
values, the fetched groups and the loading flag, which the fetch callback sets
through `setMatches` and `setLoading`. The model turns that update into a pure
function from the old board state to the new one (`ApplyFetch`).

Encoding choices:

- A status is a `string`. The empty string stands for an absent, null or empty
  status, which `status || 'pending'` cannot tell apart. Unknown statuses are
  kept.
- `maxGroupSize` is `Option<int>`. `None` is absent or null. The field is kept
  raw because the progress line prints it undefaulted.
- A member's `name` is the empty string when the member has no user or the user
  has no name. Both are falsy and the card treats them alike.
- Negative capacities are truthy in JavaScript, so they are kept. Every group
  with one counts as full and its card draws no slots. `Array.from` clamps a
  negative length to 0.
- A capacity above 2^32 - 1 makes the Array constructor throw a RangeError when
  the card is drawn. `Slots` returns `None` for it.

A capacity of 0 is falsy, so `||` turns it into 2 just like an absent one.
Groups whose status the board does not know are dropped from every column, and
the model proves exactly that.

## Model

| member | source | states |
|---|---|---|
| Matches.EffStatus | MatchKanban.tsx:50 | The effective status is never empty. A non-empty status is kept unchanged, and an empty one becomes "pending". |
| Matches.EffCap | MatchKanban.tsx:45 | The effective capacity is never 0. An absent or zero capacity becomes 2, and any other value, negative ones included, is kept. |
| Matches.IsFull | MatchKanban.tsx:45 | A group is full once its member count reaches the defaulted capacity. Its meaning is fixed by Matches.FullnessDefault and Matches.NegativeCapacityIsFull. |
| Matches.FullnessDefault | MatchKanban.tsx:45 | A group is full iff member count >= 2 when the capacity is absent or 0, and iff member count >= capacity otherwise. |
| Matches.NegativeCapacityIsFull | MatchKanban.tsx:45 | A negative capacity makes every group full, even an empty one. |
| Kanban.Column.Id | MatchKanban.tsx:13-18 | The ids of the four columns. Kanban.ParseColumnId and Kanban.ColumnIdRoundTrip show they are distinct and invertible. |
| Kanban.ParseColumnId | MatchKanban.tsx:13-18 | The column an id names has that id, and an id that names no column is the id of no column. |
| Kanban.ColumnIdRoundTrip | MatchKanban.tsx:13-18 | Parsing a column's id gives that column back. |
| Kanban.InColumn | MatchKanban.tsx:44-56 | The classifier's filter predicate. Its meaning is fixed by Kanban.ClassifyAgrees, Kanban.ColumnsExclusive, Kanban.RecognisedIffOneColumn, Kanban.EmptyStatusAsPending, Kanban.PendingGoesToExactlyOne and Kanban.StatusDecidesColumn. |
| Kanban.Classify | MatchKanban.tsx:50-55 | The reference classification gives a column exactly when the effective status is pending, filled, paid or completed. |
| Kanban.ClassifyAgrees | MatchKanban.tsx:43-57 | The filter accepts a group for an id iff the group's reference column has that id. |
| Kanban.ColumnsExclusive | MatchKanban.tsx:52-55 | If two ids both accept a group, the ids are equal, so no group is in two columns. |
| Kanban.RecognisedIffOneColumn | MatchKanban.tsx:50-56 | A group with a known status is in some column. A group with an unknown status is accepted by no id at all. |
| Kanban.EmptyStatusAsPending | MatchKanban.tsx:50 | For every column id, an empty status is classified exactly as "pending". |
| Kanban.PendingGoesToExactlyOne | MatchKanban.tsx:52-53 | A pending group is in lobby iff it is not full and in pending_payment iff it is full. It is in no other column. |
| Kanban.StatusDecidesColumn | MatchKanban.tsx:53-55 | filled, paid and completed put a group in exactly pending_payment, ready and completed, whatever its fullness. |
| Kanban.ColumnMatches | MatchKanban.tsx:43-58 | A column is an order-preserving subsequence of the input. It holds only accepted groups, and each accepted group as many times as the input does. |
| Kanban.UnknownColumnIdEmpty | MatchKanban.tsx:56 | An id that names no column yields the empty list. |
| Kanban.HitsOfOne | MatchKanban.tsx:52-55 | A group is shown in exactly one of the four columns if its status is known, and in none otherwise. |
| Kanban.TotalShown | MatchKanban.tsx:69-71 | The sum of the four column badge counts. Kanban.TotalShownCount and Kanban.TotalShownBound relate it to the number of fetched groups. |
| Kanban.TotalShownCount | MatchKanban.tsx:64-70 | The four column counts plus the number of unknown-status groups equal the number of fetched groups. |
| Kanban.TotalShownBound | MatchKanban.tsx:44-56 | The column counts sum to at most the number of groups, with equality iff every group's status is known. |
| Kanban.ClassificationExamples | MatchKanban.tsx:43-58 | Pending 1/2 goes to lobby, pending 2/2 to pending_payment, filled to pending_payment, paid to ready, and "shipped" to no column. |
| Kanban.ApplyFetch | MatchKanban.tsx:32-36 | After a resolved fetch, loading ends. A returned list, even an empty one, replaces the groups, and a null result keeps them. |
| Kanban.NullFetchEmptyBoard | MatchKanban.tsx:22-36 | A null first fetch leaves a board that is not loading and whose every column is empty. |
| Card.SlotCount | MatchKanban.tsx:109 | The card draws the defaulted capacity as its slot count: 2 for an absent or zero capacity, 0 for a negative one, and a RangeError above 2^32 - 1. |
| Card.Slots | MatchKanban.tsx:109-110 | There are SlotCount slots. Slot i is occupied iff i < member count, and then it holds members[i]. |
| Card.OccupantsOfLayout | MatchKanban.tsx:109-110 | A row laid out from a member list shows exactly the first min(slots, members) members, in order. |
| Card.ShownMembers | MatchKanban.tsx:109-110 | A card shows the members' prefix that fits its slots. Surplus members are not shown. |
| Card.Border | MatchKanban.tsx:113 | The border is paid iff the slot holds a member whose status is "paid", and dashed iff the slot is empty. Otherwise it is unpaid. |
| Card.Initials | MatchKanban.tsx:115 | The fallback is 1 or 2 characters: the start of the member's name, of length min(2, name length), or "?" when there is no member or no name. |
| Card.SlotLabel | MatchKanban.tsx:118 | The caption is the name, "Usuario" for a member without a name, or "Esperando..." for an empty slot. |
| Card.InitialsStartLabel | MatchKanban.tsx:115-118 | For a named member, the initials are a prefix of the caption. |
| Card.Progress | MatchKanban.tsx:126 | The progress line's member count and raw capacity. Card.ProgressAgreesWithSlots relates it to the drawn slots. |
| Card.ProgressAgreesWithSlots | MatchKanban.tsx:109-126 | The progress line's capacity equals the slot count iff the raw capacity is a positive drawable length. An absent or zero capacity draws 2 slots while the line does not show 2. |

## Left out

- The fetch itself is not modelled (`useAuth`, `matchesService.getSellerMatches`, the `useEffect` and its async callback). It is I/O against a service that is not part of this model. Only its outcome on the board's state is kept (`ApplyFetch`). With no user, nothing is fetched and the board stays in `InitialBoard`. The stale-response race between overlapping fetches is a concurrency matter and is not modelled.
- Kanban.ApplyFetch models only a fetch that resolves. If `getSellerMatches` rejects, or resolves to a value that cannot be destructured, the `await` throws before lines 33-36 run. The board then stays loading and the loader shows forever. The model does not capture this.
- Rendering is not modelled: JSX, styling classes, icons, column titles, the loader and the "Sin actividad" empty state. Only the column counts they display are covered (`TotalShown`).
- The `created_at` time is not modelled. It is formatted by the host's `Date` and locale.
- The deal title and `avatar_url` are passed through unchanged with no logic, so they are not modelled.
- Non-integer capacities are not modelled. NaN is falsy and would default to 2, and `Array.from` truncates a fractional length. Capacities are integers here.
- Null entries inside `members` are not modelled. Such an entry would show a placeholder.
- Card.Initials counts characters where JavaScript's `substring` counts UTF-16 code units, so a name that starts with a character outside the Basic Multilingual Plane is cut differently.
- An absent capacity and a capacity of 0 both appear in the progress line, as no number and as 0 respectively. The model records them as `None` and `Some(0)` and proves the mismatch with the slot count (Card.ProgressAgreesWithSlots). It does not model the text itself.
