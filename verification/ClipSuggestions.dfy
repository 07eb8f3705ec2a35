/** Clip suggestions taken from a language model's answer (agents/clip_suggestions.py). */
module ClipSuggestions {
  import opened Wrappers
  import Sequences

  /** One item of the answer, its texts cleaned and its numbers and timecodes parsed where they could be. */
  datatype RawClip = NotAnObject
                   | RawClip(slot: Option<int>, title: string, rationale: string, start: Option<string>,
                             end: Option<string>)
  datatype ClipDraft = ClipDraft(slot: int, title: string, rationale: string, start: string, end: string)

  const SLOTS := {1, 2, 3}

  function SlotNumber(value: Option<int>): Option<int> {
    if value.Some? && 1 <= value.value <= 3 then value else None
  }

  function Usable(item: RawClip): (r: Option<ClipDraft>)
    ensures r.Some? ==> r.value.slot in SLOTS
  {
    if && item.RawClip? && SlotNumber(item.slot).Some? && item.title != "" && item.rationale != ""
       && item.start.Some? && item.end.Some?
    then Some(ClipDraft(item.slot.value, item.title, item.rationale, item.start.value, item.end.value))
    else None
  }

  /** The earliest usable item for a slot. */
  function FirstFor(items: seq<RawClip>, slot: int): (r: Option<ClipDraft>)
    ensures r.Some? ==> r.value.slot == slot && slot in SLOTS
  {
    if items == [] then None
    else
      var (init, last) := (items[..|items| - 1], items[|items| - 1]);
      var earlier := FirstFor(init, slot);
      if earlier.Some? then earlier
      else if Usable(last).Some? && Usable(last).value.slot == slot then Usable(last)
      else None
  }

  /** The item is an object for this slot with both texts and both timecodes. */
  predicate Fills(item: RawClip, slot: int) {
    match item
    case NotAnObject => false
    case RawClip(number, title, rationale, start, end) =>
      && number == Some(slot) && 1 <= slot <= 3 && |title| > 0 && |rationale| > 0 && start.Some? && end.Some?
  }

  predicate FirstFilling(items: seq<RawClip>, slot: int, i: int) {
    0 <= i < |items| && Fills(items[i], slot) && forall j | 0 <= j < i :: !Fills(items[j], slot)
  }

  /** A slot's draft is made of the first item that fills it. */
  lemma {:induction false} FirstForMeans(items: seq<RawClip>, slot: int)
    ensures FirstFor(items, slot).None? <==> forall i | 0 <= i < |items| :: !Fills(items[i], slot)
    ensures forall i | FirstFilling(items, slot, i) ::
              FirstFor(items, slot) == Some(ClipDraft(slot, items[i].title, items[i].rationale, items[i].start.value,
                                                      items[i].end.value))
  {
    if items != [] {
      var (init, last) := (items[..|items| - 1], items[|items| - 1]);
      FirstForMeans(init, slot);
      assert items == init + [last];
      assert Fills(last, slot) <==> Usable(last).Some? && Usable(last).value.slot == slot;
      forall i | FirstFilling(items, slot, i) && i < |init| ensures FirstFilling(init, slot, i) {
      }
    }
  }

  function BySlot(a: ClipDraft, b: ClipDraft): bool {
    a.slot <= b.slot
  }

  /** The drafts the loop has collected are the first usable items of the slots it has seen. */
  ghost predicate Collected(items: seq<RawClip>, drafts: seq<ClipDraft>, seen: set<int>) {
    && seen <= SLOTS && |drafts| == |seen|
    && (forall slot :: slot in seen <==> FirstFor(items, slot).Some?)
    && (forall slot <- seen :: FirstFor(items, slot).value in drafts)
  }

  lemma CollectStep(items: seq<RawClip>, item: RawClip, drafts: seq<ClipDraft>, seen: set<int>)
    requires Collected(items, drafts, seen)
    ensures var draft := Usable(item);
            if draft.Some? && draft.value.slot !in seen then
              Collected(items + [item], drafts + [draft.value], seen + {draft.value.slot})
            else Collected(items + [item], drafts, seen)
  {
    assert (items + [item])[..|items|] == items;
    forall slot
      ensures FirstFor(items + [item], slot) ==
              if FirstFor(items, slot).Some? then FirstFor(items, slot)
              else if Usable(item).Some? && Usable(item).value.slot == slot then Usable(item)
              else None
    {
    }
  }

  method CollectClips(items: seq<RawClip>) returns (drafts: seq<ClipDraft>, seen: set<int>)
    ensures Collected(items, drafts, seen)
  {
    drafts, seen := [], {};
    for i := 0 to |items|
      invariant Collected(items[..i], drafts, seen)
    {
      assert items[..i + 1] == items[..i] + [items[i]];
      CollectStep(items[..i], items[i], drafts, seen);
      var item := items[i];
      if item.RawClip? {
        var slot := SlotNumber(item.slot);
        if && slot.Some? && slot.value !in seen && item.title != "" && item.rationale != ""
           && item.start.Some? && item.end.Some? {
          drafts := drafts + [ClipDraft(slot.value, item.title, item.rationale, item.start.value, item.end.value)];
          seen := seen + {slot.value};
        }
      }
    }
    assert items[..|items|] == items;
  }

  predicate EverySlot(items: seq<RawClip>) {
    FirstFor(items, 1).Some? && FirstFor(items, 2).Some? && FirstFor(items, 3).Some?
  }

  lemma ThreeDraftsFillSlots(items: seq<RawClip>, drafts: seq<ClipDraft>, seen: set<int>)
    requires Collected(items, drafts, seen)
    ensures |drafts| == 3 <==> EverySlot(items)
    ensures |drafts| == 3 ==>
              && FirstFor(items, 1).value in drafts && FirstFor(items, 2).value in drafts
              && FirstFor(items, 3).value in drafts
  {
    if EverySlot(items) {
      assert seen == SLOTS;
    }
    if |drafts| == 3 {
      AllSlots(seen);
    }
  }

  /** The first usable item of each slot, in slot order; None when the answer is refused. */
  method ValidatedClips(clips: Option<seq<RawClip>>, suggestions: Option<seq<RawClip>>)
    returns (r: Option<seq<ClipDraft>>)
    ensures var answer := if clips.Some? then clips else suggestions;
            && (r.Some? <==> answer.Some? && EverySlot(answer.value))
            && (r.Some? ==> r.value == [FirstFor(answer.value, 1).value, FirstFor(answer.value, 2).value,
                                        FirstFor(answer.value, 3).value])
  {
    var answer := if clips.Some? then clips else suggestions;
    if answer.None? {
      return None;
    }
    var drafts, seen := CollectClips(answer.value);
    ThreeDraftsFillSlots(answer.value, drafts, seen);
    if |drafts| != 3 {
      return None;
    }
    var sorted := Sequences.StableSort(drafts, BySlot);
    Sequences.StableSortSorts(drafts, BySlot);
    SortedSlots(drafts, sorted, FirstFor(answer.value, 1).value, FirstFor(answer.value, 2).value,
                FirstFor(answer.value, 3).value);
    r := Some(sorted);
  }

  /** Three distinct slots out of three are all of them. */
  lemma AllSlots(seen: set<int>)
    requires seen <= SLOTS && |seen| == 3
    ensures seen == SLOTS
  {
    assert SLOTS == seen + (SLOTS - seen);
  }

  lemma SortedSlots(drafts: seq<ClipDraft>, sorted: seq<ClipDraft>, first: ClipDraft, second: ClipDraft,
                    third: ClipDraft)
    requires |drafts| == 3 && first in drafts && second in drafts && third in drafts
    requires first.slot == 1 && second.slot == 2 && third.slot == 3
    requires multiset(sorted) == multiset(drafts) && Sequences.SortedBy(sorted, BySlot)
    ensures sorted == [first, second, third]
  {
    assert |multiset(sorted)| == |sorted| == 3;
    assert first in multiset(sorted) && second in multiset(sorted) && third in multiset(sorted);
  }
}
