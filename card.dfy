/** The card drawn for one match group: a row of avatar slots, one per unit of
    capacity, filled with the group's members in order, and a progress line. */
module Card {
  import opened Matches

  /** One avatar slot: a member, or a placeholder waiting for one. */
  datatype Slot = Placeholder | Occupant(member: Member)

  /** The avatar's border: green for a member who paid, gray for one who has
      not, dashed for an empty slot. */
  datatype BorderStyle = PaidBorder | UnpaidBorder | DashedBorder

  /** The largest length the Array constructor accepts (2^32 - 1). */
  const MaxArrayLength := 0xFFFF_FFFF

  function Min(a: int, b: int): int
  {
    if a <= b then a else b
  }

  /** The length of `Array.from({ length: max_group_size || 2 })`: the length
      is clamped at 0 from below, and a length the Array constructor refuses
      throws a RangeError, which is None here. */
  function SlotCount(m: MatchGroup): (r: Option<nat>)
    ensures r.Some? <==> EffCap(m.maxGroupSize) <= MaxArrayLength
    ensures r.Some? && EffCap(m.maxGroupSize) > 0 ==> r.value == EffCap(m.maxGroupSize)
    ensures EffCap(m.maxGroupSize) < 0 ==> r == Some(0)
    ensures m.maxGroupSize == None || m.maxGroupSize == Some(0) ==> r == Some(DefaultCapacity)
  {
    var n := EffCap(m.maxGroupSize);
    if n > MaxArrayLength then None
    else if n < 0 then Some(0)
    else Some(n)
  }

  /** The avatar slots of a card: slot i shows member i when the group has
      one, and a placeholder otherwise. */
  function Slots(m: MatchGroup): (r: Option<seq<Slot>>)
    ensures r.Some? <==> SlotCount(m).Some?
    ensures r.Some? ==> |r.value| == SlotCount(m).value
    ensures r.Some? ==> forall i :: 0 <= i < |r.value| ==> (r.value[i].Occupant? <==> i < |m.members|)
    ensures r.Some? ==> forall i :: 0 <= i < |r.value| && i < |m.members| ==> r.value[i].member == m.members[i]
  {
    match SlotCount(m)
    case None => None
    case Some(n) =>
      Some(seq(n, i requires 0 <= i < n => if i < |m.members| then Occupant(m.members[i]) else Placeholder))
  }

  /** The members a row of slots shows, left to right. */
  function Occupants(slots: seq<Slot>): seq<Member>
  {
    if slots == [] then []
    else (if slots[0].Occupant? then [slots[0].member] else []) + Occupants(slots[1..])
  }

  /** A row laid out from `members` shows exactly as many leading members as
      it has slots for. */
  lemma {:induction false} OccupantsOfLayout(slots: seq<Slot>, members: seq<Member>)
    requires forall i :: 0 <= i < |slots| ==> slots[i] == if i < |members| then Occupant(members[i]) else Placeholder
    ensures Occupants(slots) == members[..Min(|slots|, |members|)]
  {
    if slots != [] {
      if members == [] {
        OccupantsOfLayout(slots[1..], members);
      } else {
        OccupantsOfLayout(slots[1..], members[1..]);
        assert members[..Min(|slots|, |members|)] == [members[0]] + members[1..][..Min(|slots| - 1, |members| - 1)];
      }
    }
  }

  /** The card shows the first members in order, one per slot; members beyond
      the slot count are not shown, and every slot left over is a placeholder. */
  lemma ShownMembers(m: MatchGroup)
    requires Slots(m).Some?
    ensures Occupants(Slots(m).value) == m.members[..Min(|Slots(m).value|, |m.members|)]
    ensures |m.members| > |Slots(m).value| ==> |Occupants(Slots(m).value)| < |m.members|
  {
    OccupantsOfLayout(Slots(m).value, m.members);
  }

  /** The border of an avatar. */
  function Border(s: Slot): (r: BorderStyle)
    ensures r == PaidBorder <==> s.Occupant? && s.member.status == "paid"
    ensures r == DashedBorder <==> s.Placeholder?
  {
    match s
    case Placeholder => DashedBorder
    case Occupant(member) => if member.status == "paid" then PaidBorder else UnpaidBorder
  }

  /** The avatar's fallback text: the first two characters of the member's
      name, or "?" when there is no member or no name. */
  function Initials(s: Slot): (r: string)
    ensures 1 <= |r| <= 2
    ensures s.Occupant? && s.member.name != "" ==> r <= s.member.name && |r| == Min(2, |s.member.name|)
    ensures s.Placeholder? || s.member.name == "" ==> r == "?"
  {
    match s
    case Placeholder => "?"
    case Occupant(member) =>
      if member.name == "" then "?" else member.name[..Min(2, |member.name|)]
  }

  /** The caption under an avatar. */
  function SlotLabel(s: Slot): (r: string)
    ensures r != ""
    ensures s.Placeholder? ==> r == "Esperando..."
    ensures s.Occupant? && s.member.name != "" ==> r == s.member.name
    ensures s.Occupant? && s.member.name == "" ==> r == "Usuario"
  {
    match s
    case Placeholder => "Esperando..."
    case Occupant(member) => if member.name == "" then "Usuario" else member.name
  }

  /** A named member's initials are the start of the caption under the avatar. */
  lemma InitialsStartLabel(s: Slot)
    requires s.Occupant? && s.member.name != ""
    ensures Initials(s) <= SlotLabel(s)
  {
  }

  /** The progress line "joined / capacity unidos": the member count and the
      raw capacity field, not the defaulted one (None prints as nothing). */
  datatype ProgressText = ProgressText(joined: nat, capacity: Option<int>)

  function Progress(m: MatchGroup): ProgressText
  {
    ProgressText(|m.members|, m.maxGroupSize)
  }

  /** The progress line's capacity agrees with the number of slots drawn only
      when the capacity field holds a positive length the card can draw; for
      an absent or zero capacity the card draws two slots while the line shows
      no number or 0. */
  lemma ProgressAgreesWithSlots(m: MatchGroup)
    ensures (Slots(m).Some? && Progress(m).capacity == Some(|Slots(m).value|))
        <==> (m.maxGroupSize.Some? && 0 < m.maxGroupSize.value <= MaxArrayLength)
    ensures m.maxGroupSize == None || m.maxGroupSize == Some(0)
        ==> Slots(m).Some? && |Slots(m).value| == 2 && Progress(m).capacity != Some(2)
  {
  }
}
