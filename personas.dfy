/**
 * Personas (src/personas/persona.js): a persona's fields, its validation rule
 * and its prompt text, and the manager's map from name to valid persona.
 * Reading YAML files is abstracted: a directory listing is a sequence of file
 * names with the outcome of parsing each.
 */
module Personas {
  import opened Wrappers
  import opened JsText
  import Config

  /** One `key: value` entry of a YAML mapping, in the order the mapping lists it. */
  datatype Entry = Entry(key: string, value: string)

  datatype Expertise = Expertise(technical: Option<string>, domain: Option<string>, tools: Option<string>)

  /**
   * The fields a `Persona` keeps after its constructor's defaults: a missing
   * mapping is an empty entry list and missing goals are an empty list.
   */
  datatype PersonaData = PersonaData(
    name: Option<string>,
    description: Option<string>,
    expertise: Expertise,
    background: seq<Entry>,
    traits: seq<Entry>,
    goals: seq<string>,
    preferences: seq<Entry>)

  /** The three rules `validate` checks, in the order it checks them. */
  datatype ValidationError = NameMissing | DescriptionMissing | ExpertiseMissing

  function Message(e: ValidationError): string {
    match e
    case NameMissing => "Persona must have a name"
    case DescriptionMissing => "Persona must have a description"
    case ExpertiseMissing => "Expertise should include at least one category (technical, domain, or tools)"
  }

  function ErrorRank(e: ValidationError): nat {
    match e
    case NameMissing => 0
    case DescriptionMissing => 1
    case ExpertiseMissing => 2
  }

  predicate HasExpertise(e: Expertise) {
    Config.Truthy(e.technical) || Config.Truthy(e.domain) || Config.Truthy(e.tools)
  }

  /** A name, a description and at least one expertise category. */
  predicate IsValidData(d: PersonaData) {
    Config.Truthy(d.name) && Config.Truthy(d.description) && HasExpertise(d.expertise)
  }

  /** The messages `validate` leaves, in the order it pushes them. */
  function ValidationErrors(d: PersonaData): (errs: seq<ValidationError>)
    ensures NameMissing in errs <==> !Config.Truthy(d.name)
    ensures DescriptionMissing in errs <==> !Config.Truthy(d.description)
    ensures ExpertiseMissing in errs <==> !HasExpertise(d.expertise)
    ensures forall i, j :: 0 <= i < j < |errs| ==> ErrorRank(errs[i]) < ErrorRank(errs[j])
    ensures errs == [] <==> IsValidData(d)
  {
    (if !Config.Truthy(d.name) then [NameMissing] else [])
    + (if !Config.Truthy(d.description) then [DescriptionMissing] else [])
    + (if !HasExpertise(d.expertise) then [ExpertiseMissing] else [])
  }

  /** With the default `{}` expertise a persona is invalid, whatever else it holds. */
  lemma DefaultExpertiseInvalid(d: PersonaData)
    requires d.expertise == Expertise(None, None, None)
    ensures ValidationErrors(d) != []
    ensures ValidationErrors(d)[|ValidationErrors(d)| - 1] == ExpertiseMissing
  {
  }

  /** A template literal's rendering of a possibly missing string. */
  function Show(v: Option<string>): string {
    match v
    case Some(s) => s
    case None => "undefined"
  }

  /** `"- key: value\n"` for each entry, in order. */
  function EntryLines(es: seq<Entry>): (r: string)
    ensures |es| > 0 ==> |r| > 0
    ensures |es| > 0 ==> StartsWith(r, "- " + es[0].key + ": " + es[0].value + "\n")
    decreases |es|
  {
    if es == [] then ""
    else
      var line := "- " + es[0].key + ": " + es[0].value + "\n";
      var r := line + EntryLines(es[1..]);
      assert r[..|line|] == line;
      r
  }

  /** `"- goal\n"` for each goal, in order. */
  function GoalLines(goals: seq<string>): (r: string)
    ensures |goals| > 0 ==> StartsWith(r, "- " + goals[0] + "\n")
    decreases |goals|
  {
    if goals == [] then ""
    else
      var line := "- " + goals[0] + "\n";
      var r := line + GoalLines(goals[1..]);
      assert r[..|line|] == line;
      r
  }

  /** The expertise lines: the present categories, technical, then domain, then tools. */
  function ExpertiseLines(e: Expertise): (r: string)
    ensures r == "" <==> !HasExpertise(e)
    ensures Config.Truthy(e.technical) ==> StartsWith(r, "- Technical expertise: " + e.technical.value + "\n")
  {
    var technical := if Config.Truthy(e.technical) then "- Technical expertise: " + e.technical.value + "\n" else "";
    var domain := if Config.Truthy(e.domain) then "- Domain expertise: " + e.domain.value + "\n" else "";
    var tools := if Config.Truthy(e.tools) then "- Tools expertise: " + e.tools.value + "\n" else "";
    var r := technical + domain + tools;
    assert r[..|technical|] == technical;
    r
  }

  /** The sections of the persona prompt, in their fixed order. */
  datatype Section = ExpertiseSection | BackgroundSection | TraitsSection | GoalsSection | PreferencesSection

  function Title(s: Section): string {
    match s
    case ExpertiseSection => "## Expertise\n"
    case BackgroundSection => "## Background\n"
    case TraitsSection => "## Personality Traits\n"
    case GoalsSection => "## Goals\n"
    case PreferencesSection => "## Preferences\n"
  }

  function Rank(s: Section): nat {
    match s
    case ExpertiseSection => 0
    case BackgroundSection => 1
    case TraitsSection => 2
    case GoalsSection => 3
    case PreferencesSection => 4
  }

  /** One section of the persona prompt and its item lines. */
  datatype Block = Block(section: Section, body: string)

  /** Whether `toPrompt` writes section `k`: expertise always, the others when they have entries. */
  predicate Present(d: PersonaData, k: Section) {
    match k
    case ExpertiseSection => true
    case BackgroundSection => |d.background| > 0
    case TraitsSection => |d.traits| > 0
    case GoalsSection => |d.goals| > 0
    case PreferencesSection => |d.preferences| > 0
  }

  /** The item lines of section `k`. */
  function Body(d: PersonaData, k: Section): string {
    match k
    case ExpertiseSection => ExpertiseLines(d.expertise)
    case BackgroundSection => EntryLines(d.background)
    case TraitsSection => EntryLines(d.traits)
    case GoalsSection => GoalLines(d.goals)
    case PreferencesSection => EntryLines(d.preferences)
  }

  const SectionOrder: seq<Section> :=
    [ExpertiseSection, BackgroundSection, TraitsSection, GoalsSection, PreferencesSection]

  predicate Ascending(ks: seq<Section>) {
    forall i, j :: 0 <= i < j < |ks| ==> Rank(ks[i]) < Rank(ks[j])
  }

  /** The section of each block, in order. */
  function Kinds(bs: seq<Block>): (ks: seq<Section>)
    ensures |ks| == |bs| && forall i :: 0 <= i < |bs| ==> ks[i] == bs[i].section
    decreases |bs|
  {
    if bs == [] then [] else [bs[0].section] + Kinds(bs[1..])
  }

  /** The present sections among `ks`, in the order of `ks`, each with its lines. */
  function Select(d: PersonaData, ks: seq<Section>): (bs: seq<Block>)
    ensures forall i :: 0 <= i < |bs| ==>
      bs[i].section in ks && Present(d, bs[i].section) && bs[i].body == Body(d, bs[i].section)
    ensures |ks| > 0 && Present(d, ks[0]) ==> |bs| > 0 && bs[0] == Block(ks[0], Body(d, ks[0]))
    decreases |ks|
  {
    if ks == [] then []
    else if Present(d, ks[0]) then [Block(ks[0], Body(d, ks[0]))] + Select(d, ks[1..])
    else Select(d, ks[1..])
  }

  /** Every present section among `ks` gets a block. */
  lemma {:induction false} SelectCovers(d: PersonaData, ks: seq<Section>, k: Section)
    requires k in ks && Present(d, k)
    ensures k in Kinds(Select(d, ks))
    decreases |ks|
  {
    var rest := Select(d, ks[1..]);
    if k != ks[0] {
      SelectCovers(d, ks[1..], k);
      if Present(d, ks[0]) {
        var bs := Select(d, ks);
        assert bs[1..] == rest;
        assert Kinds(bs) == [ks[0]] + Kinds(rest);
      }
    }
  }

  /** Selecting from sections in rank order keeps the blocks in rank order. */
  lemma {:induction false} SelectAscending(d: PersonaData, ks: seq<Section>)
    requires Ascending(ks)
    ensures Ascending(Kinds(Select(d, ks)))
    decreases |ks|
  {
    if ks != [] {
      var tail := ks[1..];
      assert Ascending(tail) by {
        forall i, j | 0 <= i < j < |tail| ensures Rank(tail[i]) < Rank(tail[j]) {
          assert tail[i] == ks[i + 1] && tail[j] == ks[j + 1];
        }
      }
      SelectAscending(d, tail);
      if Present(d, ks[0]) {
        var rest := Select(d, tail);
        var b := Block(ks[0], Body(d, ks[0]));
        assert Select(d, ks) == [b] + rest;
        assert ([b] + rest)[1..] == rest;
        var later := Kinds(rest);
        assert Kinds([b] + rest) == [ks[0]] + later;
        assert forall j :: 0 <= j < |later| ==> Rank(ks[0]) < Rank(later[j]) by {
          forall j | 0 <= j < |later| ensures Rank(ks[0]) < Rank(later[j]) {
            assert later[j] == rest[j].section && rest[j].section in tail;
            var m :| 0 <= m < |tail| && tail[m] == rest[j].section;
            assert tail[m] == ks[m + 1];
          }
        }
        AscendingCons(ks[0], later);
      }
    }
  }

  /** A section ranked below every one of an ascending list can lead it. */
  lemma AscendingCons(k: Section, ks: seq<Section>)
    requires Ascending(ks)
    requires forall j :: 0 <= j < |ks| ==> Rank(k) < Rank(ks[j])
    ensures Ascending([k] + ks)
  {
    var s := [k] + ks;
    forall i, j | 0 <= i < j < |s| ensures Rank(s[i]) < Rank(s[j]) {
      assert s[j] == ks[j - 1];
      if i > 0 {
        assert s[i] == ks[i - 1];
      }
    }
  }

  /**
   * The sections of the persona prompt: expertise always, then background,
   * traits, goals and preferences, each only when it has entries.
   */
  function Blocks(d: PersonaData): (bs: seq<Block>)
    ensures forall i :: 0 <= i < |bs| ==> Present(d, bs[i].section) && bs[i].body == Body(d, bs[i].section)
    ensures |bs| > 0 && bs[0] == Block(ExpertiseSection, ExpertiseLines(d.expertise))
  {
    Select(d, SectionOrder)
  }

  lemma InSectionOrder(k: Section)
    ensures k in SectionOrder
  {
    match k
    case ExpertiseSection => assert SectionOrder[0] == k;
    case BackgroundSection => assert SectionOrder[1] == k;
    case TraitsSection => assert SectionOrder[2] == k;
    case GoalsSection => assert SectionOrder[3] == k;
    case PreferencesSection => assert SectionOrder[4] == k;
  }

  /** The fixed section order is the rank order. */
  lemma SectionOrderAscending()
    ensures Ascending(SectionOrder)
  {
    var o := SectionOrder;
    assert forall i :: 0 <= i < |o| ==> Rank(o[i]) == i;
  }

  /** Each present section has exactly one block, in the fixed order of the sections. */
  lemma BlocksExactlyPresent(d: PersonaData)
    ensures forall k :: k in Kinds(Blocks(d)) <==> Present(d, k)
    ensures Ascending(Kinds(Blocks(d)))
  {
    SectionOrderAscending();
    SelectAscending(d, SectionOrder);
    assert forall k :: k in Kinds(Blocks(d)) ==> Present(d, k) by {
      var bs := Blocks(d);
      assert forall i :: 0 <= i < |bs| ==> Kinds(bs)[i] == bs[i].section && Present(d, bs[i].section);
    }
    forall k | Present(d, k) ensures k in Kinds(Blocks(d)) {
      InSectionOrder(k);
      SelectCovers(d, SectionOrder, k);
    }
  }

  /** Each section rendered as its title, its items and a blank line. */
  function RenderBlocks(bs: seq<Block>): (r: string)
    ensures bs != [] ==> StartsWith(r, Title(bs[0].section) + bs[0].body + "\n")
    decreases |bs|
  {
    if bs == [] then ""
    else
      var first := Title(bs[0].section) + bs[0].body + "\n";
      var r := first + RenderBlocks(bs[1..]);
      assert r[..|first|] == first;
      r
  }

  /** `# User Persona: <name>` and the description, each followed by a blank line. */
  function Header(d: PersonaData): string {
    "# User Persona: " + Show(d.name) + "\n\n" + Show(d.description) + "\n\n"
  }

  /** A persona object: fixed data and the message list `validate` refreshes. */
  class Persona {
    const data: PersonaData
    var validationErrors: seq<ValidationError>

    /** `new Persona(data)`: stores the fields and validates them. */
    constructor(data: PersonaData)
      ensures this.data == data && validationErrors == ValidationErrors(data)
    {
      this.data := data;
      validationErrors := [];
      new;
      var _ := Validate();
    }

    /** `validate()`: clears the list, pushes one message per failed rule, reports success. */
    method Validate() returns (ok: bool)
      modifies this
      ensures validationErrors == ValidationErrors(data)
      ensures ok <==> validationErrors == []
    {
      validationErrors := [];
      if !Config.Truthy(data.name) {
        validationErrors := validationErrors + [NameMissing];
      }
      if !Config.Truthy(data.description) {
        validationErrors := validationErrors + [DescriptionMissing];
      }
      if !HasExpertise(data.expertise) {
        validationErrors := validationErrors + [ExpertiseMissing];
      }
      ok := |validationErrors| == 0;
    }

    /** `isValid()`: whether the last validation left no messages. */
    function IsValid(): (r: bool)
      reads this
      ensures r <==> validationErrors == []
    {
      |validationErrors| == 0
    }

    /** `toPrompt()`: the header, then the sections in their fixed order. */
    function ToPrompt(): (r: string)
      ensures StartsWith(r, Header(data))
      ensures StartsWith(r[|Header(data)|..], "## Expertise\n" + ExpertiseLines(data.expertise) + "\n")
    {
      var r := Header(data) + RenderBlocks(Blocks(data));
      assert r[..|Header(data)|] == Header(data);
      assert r[|Header(data)|..] == RenderBlocks(Blocks(data));
      r
    }
  }

  /** A freshly built persona is valid exactly when it has a name, a description and some expertise. */
  method NewPersonaValidity(d: PersonaData) returns (valid: bool)
    ensures valid <==> IsValidData(d)
  {
    var p := new Persona(d);
    valid := p.IsValid();
  }

  /** A directory entry: its file name and what reading and parsing it gives. */
  datatype PersonaFile = PersonaFile(fileName: string, parsed: Result<PersonaData>)

  predicate IsYamlFile(fileName: string) {
    EndsWith(fileName, ".yml") || EndsWith(fileName, ".yaml")
  }

  /** Whether file `f` is a YAML file holding a valid persona called `n`. */
  predicate Contributes(f: PersonaFile, n: string) {
    && IsYamlFile(f.fileName) && f.parsed.Success?
    && IsValidData(f.parsed.value) && f.parsed.value.name == Some(n)
  }

  /** The manager's map as key order plus the persona data stored under each key. */
  datatype Loaded = Loaded(order: seq<string>, byName: map<string, PersonaData>)

  predicate Distinct(s: seq<string>) {
    forall i, j :: 0 <= i < j < |s| ==> s[i] != s[j]
  }

  /** One step of the loading loop: a valid persona from a YAML file is set under its name. */
  function LoadStep(l: Loaded, f: PersonaFile): Loaded {
    if IsYamlFile(f.fileName) && f.parsed.Success? && IsValidData(f.parsed.value) then
      var n := f.parsed.value.name.value;
      Loaded(if n in l.byName then l.order else l.order + [n], l.byName[n := f.parsed.value])
    else l
  }

  /** The map `loadAllPersonas` leaves after reading `files` in order. */
  function Load(files: seq<PersonaFile>): (l: Loaded)
    ensures Distinct(l.order)
    ensures forall n :: n in l.order <==> n in l.byName
    ensures forall n :: n in l.byName ==> IsValidData(l.byName[n]) && l.byName[n].name == Some(n)
    decreases |files|
  {
    if files == [] then Loaded([], map[])
    else LoadStep(Load(files[..|files| - 1]), files[|files| - 1])
  }

  /** Every file that contributes a persona leaves its name in the map. */
  lemma {:induction false} LoadCovers(files: seq<PersonaFile>, i: nat, n: string)
    requires i < |files| && Contributes(files[i], n)
    ensures n in Load(files).byName
    decreases |files|
  {
    if i < |files| - 1 {
      var front := files[..|files| - 1];
      assert front[i] == files[i];
      LoadCovers(front, i, n);
    }
  }

  /** File `i` is the last of `files` that holds a valid persona called `n`. */
  predicate LastContributor(files: seq<PersonaFile>, n: string, i: int) {
    0 <= i < |files| && Contributes(files[i], n) && forall j :: i < j < |files| ==> !Contributes(files[j], n)
  }

  /**
   * The persona stored under a name comes from the last file that contributes
   * a persona of that name.
   */
  lemma {:induction false} LoadSource(files: seq<PersonaFile>, n: string)
    requires n in Load(files).byName
    ensures exists i :: LastContributor(files, n, i) && files[i].parsed.value == Load(files).byName[n]
    decreases |files|
  {
    var front := files[..|files| - 1];
    var f := files[|files| - 1];
    var last := |files| - 1;
    assert Load(files) == LoadStep(Load(front), f);
    if Contributes(f, n) {
      assert Load(files).byName[n] == f.parsed.value;
      assert LastContributor(files, n, last);
    } else {
      assert n in Load(front).byName && Load(files).byName[n] == Load(front).byName[n] by {
        if IsYamlFile(f.fileName) && f.parsed.Success? && IsValidData(f.parsed.value) {
          assert f.parsed.value.name.value != n;
        }
      }
      LoadSource(front, n);
      var i :| LastContributor(front, n, i) && front[i].parsed.value == Load(front).byName[n];
      assert files[i] == front[i];
      assert LastContributor(files, n, i) by {
        forall j | i < j < |files| ensures !Contributes(files[j], n) {
          if j < |front| { assert files[j] == front[j]; }
        }
      }
    }
  }

  class PersonaManager {
    var names: seq<string>
    var personas: map<string, Persona>

    /** The key order lists each key of the map once, and every stored persona is valid and keyed by its name. */
    ghost predicate Valid()
      reads this, personas.Values
    {
      && Distinct(names)
      && (forall n :: n in names <==> n in personas)
      && (forall n :: n in personas ==> personas[n].data.name == Some(n) && personas[n].IsValid())
    }

    constructor()
      ensures names == [] && personas == map[] && Valid()
    {
      names := [];
      personas := map[];
    }

    /**
     * `loadAllPersonas()`: clears the map and, when the directory could be
     * listed (`listing` is `Some`), sets every valid persona read from a
     * `.yml`/`.yaml` file under its name. A missing or unreadable directory
     * leaves the map empty.
     */
    method LoadAllPersonas(listing: Option<seq<PersonaFile>>)
      modifies this
      ensures Valid()
      ensures listing.None? ==> names == [] && personas == map[]
      ensures listing.Some? ==> Mirrors(Load(listing.value))
    {
      names := [];
      personas := map[];
      if listing.None? {
        return;
      }
      var files := listing.value;
      for i := 0 to |files|
        invariant Mirrors(Load(files[..i]))
      {
        assert files[..i + 1][..i] == files[..i];
        assert Load(files[..i + 1]) == LoadStep(Load(files[..i]), files[i]);
        Absorb(files[i], Load(files[..i]));
      }
      assert files[..|files|] == files;
    }

    /** One pass of the loading loop: a valid persona from a YAML file is set under its name. */
    method Absorb(file: PersonaFile, ghost l: Loaded)
      requires Mirrors(l)
      modifies this
      ensures Mirrors(LoadStep(l, file))
    {
      if IsYamlFile(file.fileName) && file.parsed.Success? {
        var persona := new Persona(file.parsed.value);
        if persona.IsValid() {
          var n := persona.data.name.value;
          if n !in personas {
            names := names + [n];
          }
          personas := personas[n := persona];
        }
      }
    }

    /** The manager holds exactly the personas `l` describes, in its key order. */
    ghost predicate Mirrors(l: Loaded)
      reads this, personas.Values
    {
      && names == l.order
      && (forall n :: n in personas <==> n in l.byName)
      && (forall n :: n in personas ==> personas[n].data == l.byName[n] && personas[n].IsValid())
    }

    /** `getPersona(name)`: the stored persona, or `null` for an unknown name. */
    function GetPersona(name: string): (r: Option<Persona>)
      reads this
      ensures r.Some? <==> name in personas
      ensures r.Some? ==> r.value == personas[name]
    {
      if name in personas then Some(personas[name]) else None
    }

    /** `getPersonaNames()`: the map's keys in insertion order. */
    function GetPersonaNames(): (r: seq<string>)
      reads this, personas.Values
      requires Valid()
      ensures Distinct(r)
      ensures forall n :: n in r <==> n in personas
      ensures r == names
    {
      names
    }
  }

  /** A persona read from a later file replaces one of the same name read earlier, keeping its place. */
  lemma LaterFileWins(files: seq<PersonaFile>, f: PersonaFile, n: string)
    requires Contributes(f, n) && n in Load(files).byName
    ensures Load(files + [f]).byName[n] == f.parsed.value
    ensures Load(files + [f]).order == Load(files).order
  {
    assert (files + [f])[..|files|] == files;
  }

  /** A file that is not YAML, does not parse or holds an invalid persona never changes the map. */
  lemma NonContributingIgnored(files: seq<PersonaFile>, f: PersonaFile)
    requires !IsYamlFile(f.fileName) || f.parsed.Failure? || !IsValidData(f.parsed.value)
    ensures Load(files + [f]) == Load(files)
  {
    assert (files + [f])[..|files|] == files;
  }

  /** A persona under a name not seen before is added, and its name goes to the end of the key order. */
  lemma LoadAppendsNew(files: seq<PersonaFile>, f: PersonaFile, n: string)
    requires Contributes(f, n) && n !in Load(files).byName
    ensures Load(files + [f]).order == Load(files).order + [n]
    ensures Load(files + [f]).byName == Load(files).byName[n := f.parsed.value]
  {
    assert (files + [f])[..|files|] == files;
  }
}
