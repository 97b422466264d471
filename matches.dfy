/** The records the kanban board works on: a match group (a buyers' lobby for one
    deal) and its members, with the defaults the board applies to missing fields. */
module Matches {

  datatype Option<T> = None | Some(value: T)

  /** A member of a match group. `status` is the per-member payment status
      ("paid" or anything else); `name` is the user's display name, where the
      empty string stands for a missing user or a missing name (both are falsy
      and the card treats them alike). */
  datatype Member = Member(status: string, name: string)

  /** A match group. `status` is kept as an open string so that values the
      board does not know survive; the empty string stands for an absent,
      null or empty status, which the board cannot tell apart. `maxGroupSize`
      is the raw capacity field: None when absent or null. */
  datatype MatchGroup = MatchGroup(status: string, maxGroupSize: Option<int>, members: seq<Member>)

  const DefaultStatus := "pending"
  const DefaultCapacity := 2

  /** `status || 'pending'`: a falsy status becomes "pending", any other is kept. */
  function EffStatus(status: string): (r: string)
    ensures r != ""
    ensures status != "" ==> r == status
    ensures status == "" ==> r == DefaultStatus
  {
    if status == "" then DefaultStatus else status
  }

  /** `max_group_size || 2`: an absent capacity or a capacity of 0 becomes 2;
      any other number, negative ones included, is truthy and kept. */
  function EffCap(size: Option<int>): (r: int)
    ensures r != 0
    ensures size.Some? && size.value != 0 ==> r == size.value
    ensures size == None || size == Some(0) ==> r == DefaultCapacity
  {
    match size
    case None => DefaultCapacity
    case Some(n) => if n == 0 then DefaultCapacity else n
  }

  /** A group is full once its member count reaches the effective capacity. */
  predicate IsFull(m: MatchGroup)
  {
    |m.members| >= EffCap(m.maxGroupSize)
  }

  /** Fullness with the default written out: an absent or zero capacity
      means two members fill the group. */
  lemma FullnessDefault(m: MatchGroup)
    ensures m.maxGroupSize == None || m.maxGroupSize == Some(0) ==> (IsFull(m) <==> |m.members| >= 2)
    ensures m.maxGroupSize.Some? && m.maxGroupSize.value != 0 ==> (IsFull(m) <==> |m.members| >= m.maxGroupSize.value)
  {
  }

  /** A negative capacity is truthy, so it is used as is and every group
      with such a capacity, even an empty one, counts as full. */
  lemma NegativeCapacityIsFull(m: MatchGroup)
    requires m.maxGroupSize.Some? && m.maxGroupSize.value < 0
    ensures IsFull(m)
  {
  }
}
