/** Episode plans and castings taken from a language model's answer (modules/episodes/generation.py). */
module PlanGeneration {
  import opened Wrappers
  import Sequences

  /** Library names by their comparison key. */
  type Names = map<string, string>

  /** One item of the answer; the names are given as comparison keys. */
  datatype RawEpisode = NotAnObject
                      | RawEpisode(number: Option<int>, title: string, premise: string, titleKey: string,
                                   hostKey: string, guestKey: string)

  function Matched(names: Names, key: string): Option<string> {
    if key in names && names[key] != "" then Some(names[key]) else None
  }

  // ----- casting -----

  datatype Suggestion = Suggestion(number: int, host: string, guest: string)

  /** The earliest item that names an episode. */
  function FirstNaming(items: seq<RawEpisode>, number: int): (r: Option<RawEpisode>)
    ensures r.Some? ==> r.value.RawEpisode? && r.value.number == Some(number) && r.value in items
  {
    if items == [] then None
    else
      var (init, last) := (items[..|items| - 1], items[|items| - 1]);
      assert items == init + [last];
      var earlier := FirstNaming(init, number);
      if earlier.Some? then earlier
      else if last.RawEpisode? && last.number == Some(number) then Some(last)
      else None
  }

  /** An episode is cast by the first item naming it, if both its names are in the library. */
  function CastFor(items: seq<RawEpisode>, number: int, hosts: Names, guests: Names): Option<Suggestion> {
    var item := FirstNaming(items, number);
    if item.None? || Matched(hosts, item.value.hostKey).None? || Matched(guests, item.value.guestKey).None? then None
    else Some(Suggestion(number, Matched(hosts, item.value.hostKey).value, Matched(guests, item.value.guestKey).value))
  }

  predicate NamesEpisode(item: RawEpisode, number: int) {
    item.RawEpisode? && item.number == Some(number)
  }

  predicate InLibrary(names: Names, key: string) {
    key in names && |names[key]| > 0
  }

  /** The first item naming an episode decides, and later ones cannot repair it. */
  lemma {:induction false} FirstDecides(items: seq<RawEpisode>, number: int, hosts: Names, guests: Names, i: nat)
    requires i < |items| && NamesEpisode(items[i], number) && forall j | 0 <= j < i :: !NamesEpisode(items[j], number)
    ensures FirstNaming(items, number) == Some(items[i])
    ensures CastFor(items, number, hosts, guests) ==
            if InLibrary(hosts, items[i].hostKey) && InLibrary(guests, items[i].guestKey)
            then Some(Suggestion(number, hosts[items[i].hostKey], guests[items[i].guestKey])) else None
  {
    if i < |items| - 1 {
      FirstDecides(items[..|items| - 1], number, hosts, guests, i);
    } else {
      assert forall j | 0 <= j < i :: items[..i][j] == items[j];
      assert FirstNaming(items[..i], number).None?;
    }
  }

  /** Each of the numbers seen is cast exactly once, and nothing else is. */
  ghost predicate Casts(items: seq<RawEpisode>, suggestions: seq<Suggestion>, seen: set<int>, hosts: Names,
                        guests: Names)
  {
    && |suggestions| == |seen|
    && (forall number <- seen :: CastFor(items, number, hosts, guests).Some?
                              && CastFor(items, number, hosts, guests).value in suggestions)
    && (forall s <- suggestions :: s.number in seen)
  }

  lemma FirstNamingStep(items: seq<RawEpisode>, item: RawEpisode, number: int)
    ensures FirstNaming(items + [item], number) == if FirstNaming(items, number).Some? then FirstNaming(items, number)
                                                   else if item.RawEpisode? && item.number == Some(number) then
                                                     Some(item)
                                                   else None
  {
    assert (items + [item])[..|items|] == items;
  }

  /** Which of the episodes' numbers have come up. */
  ghost predicate Named(items: seq<RawEpisode>, numbers: set<int>, seen: set<int>) {
    seen <= numbers && forall number <- numbers :: number in seen <==> FirstNaming(items, number).Some?
  }

  predicate IsNew(item: RawEpisode, numbers: set<int>, seen: set<int>) {
    item.RawEpisode? && item.number.Some? && item.number.value in numbers && item.number.value !in seen
  }

  lemma SkipStep(items: seq<RawEpisode>, item: RawEpisode, numbers: set<int>, suggestions: seq<Suggestion>,
                 seen: set<int>, hosts: Names, guests: Names)
    requires Casts(items, suggestions, seen, hosts, guests) && Named(items, numbers, seen)
    requires !IsNew(item, numbers, seen)
    ensures Casts(items + [item], suggestions, seen, hosts, guests) && Named(items + [item], numbers, seen)
  {
    forall number
      ensures FirstNaming(items, number).Some? ==> FirstNaming(items + [item], number) == FirstNaming(items, number)
      ensures number in numbers ==>
                FirstNaming(items + [item], number).Some? == FirstNaming(items, number).Some?
    {
      FirstNamingStep(items, item, number);
    }
  }

  lemma CastStep(items: seq<RawEpisode>, item: RawEpisode, numbers: set<int>, suggestions: seq<Suggestion>,
                 seen: set<int>, hosts: Names, guests: Names)
    requires Casts(items, suggestions, seen, hosts, guests) && Named(items, numbers, seen) && IsNew(item, numbers, seen)
    ensures Named(items + [item], numbers, seen + {item.number.value})
    ensures FirstNaming(items + [item], item.number.value) == Some(item)
    ensures var cast := CastFor(items + [item], item.number.value, hosts, guests);
            cast.Some? ==> Casts(items + [item], suggestions + [cast.value], seen + {item.number.value}, hosts, guests)
  {
    forall number ensures FirstNaming(items + [item], number) ==
                            if number == item.number.value && FirstNaming(items, number).None? then Some(item)
                            else FirstNaming(items, number) {
      FirstNamingStep(items, item, number);
    }
  }

  /** Accepted exactly when every episode is named and the first item naming it matches the library. */
  method ValidatedProfileSuggestions(answer: Option<seq<RawEpisode>>, numbers: set<int>, hosts: Names, guests: Names)
    returns (r: Option<seq<Suggestion>>)
    ensures r.Some? <==> (answer.Some? && answer.value != []
                          && forall number <- numbers :: CastFor(answer.value, number, hosts, guests).Some?)
    ensures r.Some? ==> Casts(answer.value, r.value, numbers, hosts, guests)
  {
    if answer.None? || answer.value == [] {
      return None;
    }
    var items := answer.value;
    var suggestions: seq<Suggestion>, seen: set<int> := [], {};
    for i := 0 to |items|
      invariant Casts(items[..i], suggestions, seen, hosts, guests) && Named(items[..i], numbers, seen)
    {
      assert items[..i + 1] == items[..i] + [items[i]];
      var item := items[i];
      if !IsNew(item, numbers, seen) {
        SkipStep(items[..i], item, numbers, suggestions, seen, hosts, guests);
        continue;
      }
      CastStep(items[..i], item, numbers, suggestions, seen, hosts, guests);
      var host, guest := Matched(hosts, item.hostKey), Matched(guests, item.guestKey);
      if host.None? || guest.None? {
        FirstStays(items, i + 1, item.number.value);
        return None;
      }
      suggestions := suggestions + [Suggestion(item.number.value, host.value, guest.value)];
      seen := seen + {item.number.value};
    }
    assert items[..|items|] == items;
    CountDecides(items, numbers, suggestions, seen, hosts, guests);
    if |suggestions| != |numbers| {
      return None;
    }
    r := Some(suggestions);
  }

  /** As many suggestions as episodes means that every episode has one. */
  lemma CountDecides(items: seq<RawEpisode>, numbers: set<int>, suggestions: seq<Suggestion>, seen: set<int>,
                     hosts: Names, guests: Names)
    requires Casts(items, suggestions, seen, hosts, guests) && Named(items, numbers, seen)
    ensures |suggestions| == |numbers| <==> forall number <- numbers :: CastFor(items, number, hosts, guests).Some?
    ensures |suggestions| == |numbers| ==> seen == numbers
  {
    assert numbers == seen + (numbers - seen);
    if forall number <- numbers :: CastFor(items, number, hosts, guests).Some? {
      forall number <- numbers ensures number in seen {
        assert CastFor(items, number, hosts, guests).Some?;
      }
    }
  }

  lemma {:induction false} FirstStays(items: seq<RawEpisode>, i: nat, number: int)
    requires i <= |items| && FirstNaming(items[..i], number).Some?
    ensures FirstNaming(items, number) == FirstNaming(items[..i], number)
  {
    if i < |items| {
      var init := items[..|items| - 1];
      assert init[..i] == items[..i];
      FirstStays(init, i, number);
    } else {
      assert items[..i] == items;
    }
  }

  /** The suggestions of an accepted casting name each episode exactly once. */
  lemma CastOnce(items: seq<RawEpisode>, suggestions: seq<Suggestion>, numbers: set<int>, hosts: Names, guests: Names,
                 i: nat, j: nat)
    requires Casts(items, suggestions, numbers, hosts, guests) && i < j < |suggestions|
    ensures suggestions[i].number != suggestions[j].number
  {
    if suggestions[i].number == suggestions[j].number {
      var fewer := suggestions[..j] + suggestions[j + 1..];
      NumbersCovered(fewer, numbers, suggestions, j, i);
      FewNumbers(fewer);
    }
  }

  ghost function NumbersIn(suggestions: seq<Suggestion>): set<int> {
    set s <- suggestions :: s.number
  }

  lemma NumbersCovered(fewer: seq<Suggestion>, numbers: set<int>, suggestions: seq<Suggestion>, j: nat, i: nat)
    requires i < j < |suggestions| && suggestions[i].number == suggestions[j].number
    requires fewer == suggestions[..j] + suggestions[j + 1..]
    requires forall number <- numbers :: exists s <- suggestions :: s.number == number
    ensures |NumbersIn(fewer)| >= |numbers|
  {
    forall number <- numbers ensures number in NumbersIn(fewer) {
      var s :| s in suggestions && s.number == number;
      var k :| 0 <= k < |suggestions| && suggestions[k] == s;
      if k == j {
        assert fewer[i].number == number;
      } else {
        assert fewer[if k < j then k else k - 1] == s;
      }
    }
    assert NumbersIn(fewer) == numbers + (NumbersIn(fewer) - numbers);
  }

  lemma {:induction false} FewNumbers(suggestions: seq<Suggestion>)
    ensures |NumbersIn(suggestions)| <= |suggestions|
  {
    if suggestions != [] {
      var (init, last) := (suggestions[..|suggestions| - 1], suggestions[|suggestions| - 1]);
      assert suggestions == init + [last];
      FewNumbers(init);
      assert NumbersIn(suggestions) == NumbersIn(init) + {last.number};
    }
  }

  // ----- plans -----

  const MAX_EPISODES := 50

  datatype PlanDraft = PlanDraft(title: string, premise: string, host: Option<string>, guest: Option<string>)

  predicate Titled(item: RawEpisode) {
    item.RawEpisode? && item.title != "" && item.premise != ""
  }

  /** The items with a title and a premise. */
  function TitledItems(items: seq<RawEpisode>): (r: seq<RawEpisode>)
    ensures forall item <- r :: Titled(item)
  {
    if items == [] then []
    else
      var (init, last) := (TitledItems(items[..|items| - 1]), items[|items| - 1]);
      if Titled(last) then init + [last] else init
  }

  function TitleKey(item: RawEpisode): string {
    if item.RawEpisode? then item.titleKey else ""
  }

  /** What a plan is made of: the first item of every distinct title. */
  function PlanItems(items: seq<RawEpisode>): (r: seq<RawEpisode>)
    ensures forall item <- r :: Titled(item)
  {
    Sequences.DedupeBy(TitledItems(items), TitleKey)
  }

  /** Where the library has names of a kind, every episode must be given one of them. */
  predicate CastFromLibrary(item: RawEpisode, hosts: Names, guests: Names)
    requires item.RawEpisode?
  {
    && (hosts != map[] ==> Matched(hosts, item.hostKey).Some?)
    && (guests != map[] ==> Matched(guests, item.guestKey).Some?)
  }

  function DraftOf(item: RawEpisode, hosts: Names, guests: Names): PlanDraft
    requires item.RawEpisode?
  {
    PlanDraft(item.title, item.premise, Matched(hosts, item.hostKey), Matched(guests, item.guestKey))
  }

  /** The drafts come from the items in order, and every item is cast. */
  ghost predicate Drafts(items: seq<RawEpisode>, drafts: seq<PlanDraft>, hosts: Names, guests: Names)
    requires forall item <- items :: item.RawEpisode?
  {
    && |drafts| == |items|
    && forall i | 0 <= i < |items| ::
         drafts[i] == DraftOf(items[i], hosts, guests) && CastFromLibrary(items[i], hosts, guests)
  }

  lemma DraftsStep(items: seq<RawEpisode>, item: RawEpisode, drafts: seq<PlanDraft>, hosts: Names, guests: Names)
    requires (forall i <- items :: i.RawEpisode?) && Drafts(items, drafts, hosts, guests)
    requires item.RawEpisode? && CastFromLibrary(item, hosts, guests)
    ensures forall i <- items + [item] :: i.RawEpisode?
    ensures Drafts(items + [item], drafts + [DraftOf(item, hosts, guests)], hosts, guests)
  {
  }

  predicate AllCast(items: seq<RawEpisode>, hosts: Names, guests: Names) {
    forall item <- PlanItems(items) :: CastFromLibrary(item, hosts, guests)
  }

  ghost predicate TitlesSeen(items: seq<RawEpisode>, seenTitles: set<string>) {
    forall key :: key in seenTitles <==> Sequences.HasKey(TitledItems(items), TitleKey, key)
  }

  lemma TitlesStep(items: seq<RawEpisode>, item: RawEpisode, seenTitles: set<string>)
    requires TitlesSeen(items, seenTitles)
    ensures Titled(item) ==> TitlesSeen(items + [item], seenTitles + {item.titleKey})
    ensures !Titled(item) || item.titleKey in seenTitles ==> TitlesSeen(items + [item], seenTitles)
  {
    PlanItemsStep(items, item);
  }

  /** The loop over the items; None at the first one that is not cast. */
  method CollectDrafts(items: seq<RawEpisode>, hosts: Names, guests: Names) returns (r: Option<seq<PlanDraft>>)
    ensures r.Some? <==> AllCast(items, hosts, guests)
    ensures r.Some? ==> Drafts(PlanItems(items), r.value, hosts, guests)
  {
    var drafts: seq<PlanDraft>, seenTitles: set<string> := [], {};
    for i := 0 to |items|
      invariant Drafts(PlanItems(items[..i]), drafts, hosts, guests) && TitlesSeen(items[..i], seenTitles)
    {
      assert items[..i + 1] == items[..i] + [items[i]];
      PlanItemsAfter(items[..i], items[i]);
      TitlesStep(items[..i], items[i], seenTitles);
      var item := items[i];
      if item.RawEpisode? && item.title != "" && item.premise != "" && item.titleKey !in seenTitles {
        seenTitles := seenTitles + {item.titleKey};
        var host, guest := Matched(hosts, item.hostKey), Matched(guests, item.guestKey);
        if (hosts != map[] && host.None?) || (guests != map[] && guest.None?) {
          PlanItemsGrow(items, i + 1, item);
          return None;
        }
        DraftsStep(PlanItems(items[..i]), item, drafts, hosts, guests);
        drafts := drafts + [PlanDraft(item.title, item.premise, host, guest)];
      }
    }
    assert items[..|items|] == items;
    r := Some(drafts);
  }

  /** Accepted exactly for a list of 1 to 50 items with at least one titled one, all its titles cast. */
  method ValidatedEpisodePlan(answer: Option<seq<RawEpisode>>, hosts: Names, guests: Names)
    returns (r: Option<seq<PlanDraft>>)
    ensures r.Some? <==> (answer.Some? && 1 <= |answer.value| <= 50 && PlanItems(answer.value) != []
                          && AllCast(answer.value, hosts, guests))
    ensures r.Some? ==> Drafts(PlanItems(answer.value), r.value, hosts, guests)
  {
    if answer.None? || answer.value == [] || |answer.value| > MAX_EPISODES {
      return None;
    }
    r := CollectDrafts(answer.value, hosts, guests);
    if r == Some([]) {
      r := None;
    }
  }

  lemma PlanItemsAfter(items: seq<RawEpisode>, item: RawEpisode)
    ensures var known := Sequences.HasKey(TitledItems(items), TitleKey, TitleKey(item));
            PlanItems(items + [item]) == if Titled(item) && !known then PlanItems(items) + [item] else PlanItems(items)
  {
    PlanItemsStep(items, item);
  }

  lemma PlanItemsStep(items: seq<RawEpisode>, item: RawEpisode)
    ensures var known := Sequences.HasKey(TitledItems(items), TitleKey, TitleKey(item));
            PlanItems(items + [item]) == if Titled(item) && !known then PlanItems(items) + [item] else PlanItems(items)
    ensures forall key :: Sequences.HasKey(TitledItems(items + [item]), TitleKey, key) <==>
                            || Sequences.HasKey(TitledItems(items), TitleKey, key)
                            || (Titled(item) && TitleKey(item) == key)
  {
    var titled := TitledItems(items);
    assert (items + [item])[..|items|] == items;
    if Titled(item) {
      assert TitledItems(items + [item]) == titled + [item];
      assert (titled + [item])[..|titled|] == titled;
      forall key ensures Sequences.HasKey(titled + [item], TitleKey, key) <==>
                           Sequences.HasKey(titled, TitleKey, key) || TitleKey(item) == key {
        Sequences.HasKeyAppend(titled, item, TitleKey, key);
      }
    }
  }

  /** An item once in the plan is not dropped by later ones. */
  lemma {:induction false} PlanItemsGrow(items: seq<RawEpisode>, i: nat, item: RawEpisode)
    requires i <= |items| && item in PlanItems(items[..i])
    ensures item in PlanItems(items)
  {
    if i < |items| {
      var (init, last) := (items[..|items| - 1], items[|items| - 1]);
      assert init[..i] == items[..i] && items == init + [last];
      PlanItemsGrow(init, i, item);
      PlanItemsStep(init, last);
    } else {
      assert items[..i] == items;
    }
  }

  /** The episodes of an accepted plan have pairwise different titles. */
  lemma PlanTitlesDiffer(items: seq<RawEpisode>, i: nat, j: nat)
    requires i < j < |PlanItems(items)|
    ensures TitleKey(PlanItems(items)[i]) != TitleKey(PlanItems(items)[j])
  {
    Sequences.DedupeKeys(TitledItems(items), TitleKey);
  }

  predicate HasTexts(item: RawEpisode) {
    item.RawEpisode? && |item.title| > 0 && |item.premise| > 0
  }

  /** The item has a title and a premise, and no earlier such item has its title. */
  predicate KeptAt(items: seq<RawEpisode>, i: nat) {
    && i < |items| && HasTexts(items[i])
    && forall j | 0 <= j < i && HasTexts(items[j]) :: items[j].titleKey != items[i].titleKey
  }

  ghost predicate KeptPositions(items: seq<RawEpisode>, kept: seq<RawEpisode>, positions: seq<nat>) {
    && |positions| == |kept|
    && (forall k | 0 <= k < |kept| :: KeptAt(items, positions[k]) && kept[k] == items[positions[k]])
    && (forall k, l | 0 <= k < l < |kept| :: positions[k] < positions[l])
    && (forall i: nat | KeptAt(items, i) :: i in positions)
  }

  /** Which titles are taken. */
  lemma {:induction false} KnownTitles(items: seq<RawEpisode>, key: string)
    ensures Sequences.HasKey(TitledItems(items), TitleKey, key) <==>
            exists j | 0 <= j < |items| :: HasTexts(items[j]) && items[j].titleKey == key
  {
    if items != [] {
      var (init, last) := (items[..|items| - 1], items[|items| - 1]);
      assert items == init + [last];
      KnownTitles(init, key);
      PlanItemsStep(init, last);
    }
  }

  /** The next item is kept or not; what is kept before it stays. */
  lemma NextKept(items: seq<RawEpisode>, item: RawEpisode)
    ensures PlanItems(items + [item]) == PlanItems(items) + if KeptAt(items + [item], |items|) then [item] else []
    ensures forall i: nat | i < |items| :: KeptAt(items + [item], i) <==> KeptAt(items, i)
  {
    var longer := items + [item];
    assert forall j | 0 <= j < |items| :: longer[j] == items[j];
    assert Titled(item) <==> HasTexts(item);
    PlanItemsAfter(items, item);
    KnownTitles(items, TitleKey(item));
    assert KeptAt(longer, |items|) <==>
           Titled(item) && !Sequences.HasKey(TitledItems(items), TitleKey, TitleKey(item));
  }

  lemma KeptMore(items: seq<RawEpisode>, item: RawEpisode, kept: seq<RawEpisode>, positions: seq<nat>)
    requires KeptPositions(items, kept, positions)
    requires forall i: nat | i < |items| :: KeptAt(items + [item], i) <==> KeptAt(items, i)
    ensures KeptAt(items + [item], |items|) ==>
              KeptPositions(items + [item], kept + [item], positions + [|items|])
    ensures !KeptAt(items + [item], |items|) ==> KeptPositions(items + [item], kept, positions)
  {
  }

  /** A plan is made of exactly the kept items, in the order of the answer. */
  lemma {:induction false} PlanKeepsOrder(items: seq<RawEpisode>) returns (positions: seq<nat>)
    ensures KeptPositions(items, PlanItems(items), positions)
  {
    if items == [] {
      positions := [];
    } else {
      var (init, last) := (items[..|items| - 1], items[|items| - 1]);
      assert items == init + [last];
      positions := PlanKeepsOrder(init);
      NextKept(init, last);
      KeptMore(init, last, PlanItems(init), positions);
      if KeptAt(items, |init|) {
        positions := positions + [|init|];
      }
    }
  }

  predicate CastByName(names: Names, key: string, name: Option<string>) {
    && (InLibrary(names, key) ==> name == Some(names[key]))
    && (!InLibrary(names, key) ==> name == None && names == map[])
  }

  /** Every draft has its item's texts and names from the library; only an empty library leaves a name out. */
  lemma DraftsMean(items: seq<RawEpisode>, drafts: seq<PlanDraft>, hosts: Names, guests: Names, i: nat)
    requires Drafts(PlanItems(items), drafts, hosts, guests) && i < |drafts|
    ensures i < |PlanItems(items)| && PlanItems(items)[i].RawEpisode?
    ensures var (item, draft) := (PlanItems(items)[i], drafts[i]);
            && draft.title == item.title && draft.premise == item.premise
            && CastByName(hosts, item.hostKey, draft.host) && CastByName(guests, item.guestKey, draft.guest)
  {
    assert Titled(PlanItems(items)[i]);
  }

  /** A plan is refused when some kept item leaves out a name the library could give. */
  lemma RefusedCast(items: seq<RawEpisode>, hosts: Names, guests: Names)
    ensures AllCast(items, hosts, guests) <==>
            forall i: nat | KeptAt(items, i) ::
              && (hosts != map[] ==> InLibrary(hosts, items[i].hostKey))
              && (guests != map[] ==> InLibrary(guests, items[i].guestKey))
  {
    var positions := PlanKeepsOrder(items);
    forall i: nat | KeptAt(items, i) ensures items[i] in PlanItems(items) {
      var k :| 0 <= k < |positions| && positions[k] == i;
      assert PlanItems(items)[k] == items[i];
    }
    forall item <- PlanItems(items) ensures exists i: nat :: KeptAt(items, i) && items[i] == item {
      var k :| 0 <= k < |positions| && PlanItems(items)[k] == item;
      assert KeptAt(items, positions[k]);
    }
  }
}
