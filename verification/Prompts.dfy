/** Prompt templates and their versions (agents/service.py): seeding, new versions and the one active version. */
module Prompts {
  import opened Wrappers

  datatype VersionStatus = Draft | Active | Archived
  datatype PromptVersion = PromptVersion(number: int, body: string, status: VersionStatus)
  datatype DefaultPrompt = DefaultPrompt(key: string, body: string)

  /** The versions of each template that exists. */
  type Templates = map<string, seq<PromptVersion>>

  predicate HasActive(versions: seq<PromptVersion>) {
    exists v <- versions :: v.status == Active
  }

  /** Seeding writes version 1, whatever versions there are, unless one is active. */
  function Seeded(versions: seq<PromptVersion>, body: string): seq<PromptVersion> {
    if HasActive(versions) then versions else versions + [PromptVersion(1, body, Active)]
  }

  function VersionsOf(templates: Templates, key: string): seq<PromptVersion> {
    if key in templates then templates[key] else []
  }

  function Ensured(templates: Templates, defaults: seq<DefaultPrompt>): (r: Templates)
    ensures r.Keys >= templates.Keys
  {
    if defaults == [] then templates
    else
      var (init, last) := (defaults[..|defaults| - 1], defaults[|defaults| - 1]);
      var before := Ensured(templates, init);
      before[last.key := Seeded(VersionsOf(before, last.key), last.body)]
  }

  function GreatestNumber(versions: seq<PromptVersion>): int {
    if versions == [] then 0
    else
      var init := GreatestNumber(versions[..|versions| - 1]);
      var last := versions[|versions| - 1].number;
      if last > init then last else init
  }

  function ArchiveActive(versions: seq<PromptVersion>): seq<PromptVersion> {
    seq(|versions|, i requires 0 <= i < |versions| =>
      if versions[i].status == Active then versions[i].(status := Archived) else versions[i])
  }

  function WithVersion(versions: seq<PromptVersion>, body: string, status: VersionStatus): seq<PromptVersion> {
    var kept := if status == Active then ArchiveActive(versions) else versions;
    kept + [PromptVersion(GreatestNumber(versions) + 1, body, status)]
  }

  datatype Operation = EnsureDefaults | CreateVersion(key: string, body: string, status: VersionStatus)

  function After(templates: Templates, defaults: seq<DefaultPrompt>, operation: Operation): Templates {
    var ensured := Ensured(templates, defaults);
    match operation
    case EnsureDefaults => ensured
    case CreateVersion(key, body, status) =>
      if key in ensured then ensured[key := WithVersion(ensured[key], body, status)] else ensured
  }

  class PromptService {
    var templates: Templates

    constructor (templates: Templates)
      ensures this.templates == templates
    {
      this.templates := templates;
    }

    method SeedDefaults(defaults: seq<DefaultPrompt>)
      modifies this
      ensures templates == After(old(templates), defaults, EnsureDefaults)
    {
      for i := 0 to |defaults|
        invariant templates == Ensured(old(templates), defaults[..i])
      {
        assert defaults[..i + 1][..i] == defaults[..i];
        var key := defaults[i].key;
        if key !in templates {
          templates := templates[key := []];
        }
        if !HasActive(templates[key]) {
          templates := templates[key := templates[key] + [PromptVersion(1, defaults[i].body, Active)]];
        }
      }
      assert defaults[..|defaults|] == defaults;
    }

    /** None when no template has the key; the defaults are seeded all the same. */
    method CreatePromptVersion(defaults: seq<DefaultPrompt>, key: string, body: string, status: VersionStatus)
      returns (created: Option<PromptVersion>)
      modifies this
      ensures templates == After(old(templates), defaults, CreateVersion(key, body, status))
      ensures created.Some? <==> key in templates
      ensures created.Some? ==> templates[key] != [] && created.value == templates[key][|templates[key]| - 1]
      ensures created.Some? ==> created.value.body == body && created.value.status == status
    {
      SeedDefaults(defaults);
      if key !in templates {
        return None;
      }
      var next := GreatestNumber(templates[key]) + 1;
      if status == Active {
        templates := templates[key := ArchiveActive(templates[key])];
      }
      var version := PromptVersion(next, body, status);
      templates := templates[key := templates[key] + [version]];
      created := Some(version);
    }
  }

  // ----- what every reachable table satisfies -----

  ghost predicate OnlyActive(versions: seq<PromptVersion>, i: nat) {
    && i < |versions| && versions[i].status == Active
    && forall j | 0 <= j < |versions| && j != i :: versions[j].status != Active
  }

  /** Numbered 1..k with exactly one active version. */
  ghost predicate VersionsInv(versions: seq<PromptVersion>) {
    && (forall i | 0 <= i < |versions| :: versions[i].number == i + 1)
    && exists i :: OnlyActive(versions, i)
  }

  ghost predicate Inv(templates: Templates) {
    forall key <- templates :: VersionsInv(templates[key])
  }

  /** Versions stay, in place and unchanged, except that an active one may be archived. */
  ghost predicate Extends(before: seq<PromptVersion>, after: seq<PromptVersion>) {
    && |before| <= |after|
    && forall i | 0 <= i < |before| ::
         after[i] == before[i] || (before[i].status == Active && after[i] == before[i].(status := Archived))
  }

  lemma {:induction false} GreatestIsLast(versions: seq<PromptVersion>)
    requires forall i | 0 <= i < |versions| :: versions[i].number == i + 1
    ensures GreatestNumber(versions) == |versions|
  {
    if versions != [] {
      GreatestIsLast(versions[..|versions| - 1]);
    }
  }

  lemma NewVersionKeeps(versions: seq<PromptVersion>, body: string, status: VersionStatus)
    requires VersionsInv(versions)
    ensures VersionsInv(WithVersion(versions, body, status)) && Extends(versions, WithVersion(versions, body, status))
    ensures |WithVersion(versions, body, status)| == |versions| + 1
    ensures WithVersion(versions, body, status)[|versions|] == PromptVersion(|versions| + 1, body, status)
    ensures status == Active ==> OnlyActive(WithVersion(versions, body, status), |versions|)
    ensures status != Active ==> WithVersion(versions, body, status)[..|versions|] == versions
  {
    GreatestIsLast(versions);
    var i :| OnlyActive(versions, i);
    if status == Active {
      assert OnlyActive(WithVersion(versions, body, status), |versions|);
    } else {
      assert OnlyActive(WithVersion(versions, body, status), i);
    }
  }

  ghost predicate IsDefault(defaults: seq<DefaultPrompt>, key: string) {
    exists d <- defaults :: d.key == key
  }

  predicate FirstDefault(defaults: seq<DefaultPrompt>, key: string, i: int) {
    && 0 <= i < |defaults| && defaults[i].key == key
    && forall j | 0 <= j < i :: defaults[j].key != key
  }

  /** One default: an existing template stays, a missing one starts with an active version 1. */
  lemma SeedingOne(templates: Templates, d: DefaultPrompt)
    requires Inv(templates)
    ensures var after := templates[d.key := Seeded(VersionsOf(templates, d.key), d.body)];
            Inv(after) && after == if d.key in templates then templates
                                   else templates[d.key := [PromptVersion(1, d.body, Active)]]
  {
    if d.key in templates {
      var i: nat :| OnlyActive(templates[d.key], i);
      assert templates[d.key][i] in templates[d.key];
    } else {
      assert Seeded([], d.body) == [PromptVersion(1, d.body, Active)];
      assert OnlyActive(Seeded([], d.body), 0);
    }
  }

  /** Seeding leaves every existing template alone, so a second version 1 is never inserted. */
  lemma {:induction false} SeedingKeepsTemplates(templates: Templates, defaults: seq<DefaultPrompt>, key: string)
    requires Inv(templates)
    ensures Inv(Ensured(templates, defaults))
    ensures key in templates ==> Ensured(templates, defaults)[key] == templates[key]
    ensures key in Ensured(templates, defaults) <==> key in templates || IsDefault(defaults, key)
    ensures key !in templates ==> forall i | FirstDefault(defaults, key, i) ::
              key in Ensured(templates, defaults)
              && Ensured(templates, defaults)[key] == [PromptVersion(1, defaults[i].body, Active)]
  {
    if defaults != [] {
      var (init, last) := (defaults[..|defaults| - 1], defaults[|defaults| - 1]);
      assert defaults == init + [last];
      SeedingKeepsTemplates(templates, init, key);
      SeedingOne(Ensured(templates, init), last);
      forall i | FirstDefault(defaults, key, i) && i < |init| ensures FirstDefault(init, key, i) {
        assert init[i] in init;
      }
    }
  }

  /** Seeding writes into a template that exists exactly when the template has no active version. */
  lemma SeedingRepeatsVersionOne(versions: seq<PromptVersion>, body: string)
    ensures Seeded(versions, body) != versions <==> forall v <- versions :: v.status != Active
    ensures Seeded(versions, body) != versions && versions != [] && versions[0].number == 1 ==>
              Seeded(versions, body)[0].number == Seeded(versions, body)[|versions|].number
  {
  }

  lemma CreatingKeeps(templates: Templates, target: string, body: string, status: VersionStatus, key: string)
    requires Inv(templates) && target in templates
    ensures Inv(templates[target := WithVersion(templates[target], body, status)])
    ensures key in templates ==>
              Extends(templates[key], templates[target := WithVersion(templates[target], body, status)][key])
  {
    NewVersionKeeps(templates[target], body, status);
  }

  lemma OperationKeeps(templates: Templates, defaults: seq<DefaultPrompt>, operation: Operation, key: string)
    requires Inv(templates)
    ensures Inv(After(templates, defaults, operation))
    ensures key in templates ==>
              && key in After(templates, defaults, operation)
              && Extends(templates[key], After(templates, defaults, operation)[key])
  {
    SeedingKeepsTemplates(templates, defaults, key);
    var ensured := Ensured(templates, defaults);
    if operation.CreateVersion? && operation.key in ensured {
      CreatingKeeps(ensured, operation.key, operation.body, operation.status, key);
    }
  }

  ghost predicate IsRun(tables: seq<Templates>, defaults: seq<DefaultPrompt>, operations: seq<Operation>) {
    && |tables| == |operations| + 1 && tables[0] == map[]
    && forall i | 0 <= i < |operations| :: tables[i + 1] == After(tables[i], defaults, operations[i])
  }

  /** In every run the histories are numbered 1..k with one active version, and only grow. */
  lemma {:induction false} HistoriesGrow(tables: seq<Templates>, defaults: seq<DefaultPrompt>,
                                         operations: seq<Operation>, i: nat, j: nat, key: string)
    requires IsRun(tables, defaults, operations) && i <= j < |tables|
    ensures Inv(tables[j])
    ensures key in tables[i] ==> key in tables[j] && Extends(tables[i][key], tables[j][key])
    decreases j
  {
    if i < j {
      HistoriesGrow(tables, defaults, operations, i, j - 1, key);
      OperationKeeps(tables[j - 1], defaults, operations[j - 1], key);
    } else if j > 0 {
      HistoriesGrow(tables, defaults, operations, j - 1, j - 1, key);
      OperationKeeps(tables[j - 1], defaults, operations[j - 1], key);
    }
  }
}
