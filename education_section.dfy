/** The education and certifications section: one list of entries in the document under
    `education`, shown as two tabs filtered by the entry's `type`. */
module EducationSection {
  import opened Wrappers
  import opened Json
  import opened Document
  import opened Lists

  /** The two kinds of entry, by the value of their `type` field. */
  datatype Kind = Education | Certification

  function KindName(k: Kind): string {
    match k
    case Education => "education"
    case Certification => "certification"
  }

  /** The fields an entry editor changes. */
  datatype Field = Institution | Dates | Qualification | Link | Type

  function FieldName(f: Field): string {
    match f
    case Institution => "institution"
    case Dates => "dates"
    case Qualification => "qualification"
    case Link => "link"
    case Type => "type"
  }

  function Entry(institution: string, dates: string, qualification: string, link: string, kind: string): Json {
    Obj(map[
      "institution" := Str(institution), "dates" := Str(dates), "qualification" := Str(qualification),
      "link" := Str(link), "type" := Str(kind)])
  }

  /** The entries the section starts with. */
  function Defaults(): seq<Option<Json>> {
    [ Some(Entry("Columbia University", "2015-2019", "Bachelor of Science in Computer Science", "", "education")),
      Some(Entry("Stanford University", "2019-2021", "Master of Science in Computer Science", "", "education")),
      Some(Entry("Udacity", "2020", "Front End Web Developer Nanodegree", "https://confirm.udacity.com/example", "certification")),
      Some(Entry("freeCodeCamp", "2021", "Responsive Web Design Certification", "https://www.freecodecamp.org/certification/example", "certification")),
      Some(Entry("Google", "2022", "Google UX Design Professional Certificate", "https://www.coursera.org/example", "certification")) ]
  }

  /** The placeholder entry `addEducation(kind)` appends. */
  function NewEntry(kind: Kind): Json {
    Entry("New Institution", "Year - Year", "Qualification", "", KindName(kind))
  }

  /** `copy[index] = {...copy[index], [field]: value}` on a copy of the list. */
  function Updated(xs: seq<Option<Json>>, index: nat, field: string, value: Json): (r: seq<Option<Json>>)
    ensures |r| == if index < |xs| then |xs| else index + 1
    ensures r[index].Some? && r[index].value.Obj? && Prop(r[index], field) == Some(value)
    ensures index < |xs| && xs[index].Some? && xs[index].value.Obj? ==>
              forall k :: k != field ==> Prop(r[index], k) == Prop(xs[index], k)
    ensures index >= |xs| || xs[index].None? ==> r[index].value.fields == map[field := value]
    ensures forall k :: 0 <= k < |r| && k != index ==> r[k] == if k < |xs| then xs[k] else None
  {
    var entry := if index < |xs| then xs[index] else None;
    StoreAt(xs, index, Obj(Spread(entry)[field := value]))
  }

  /** `entry.type === t`. */
  predicate HasType(e: Option<Json>, t: string) {
    Prop(e, "type") == Some(Str(t))
  }

  /** `list.filter(e => e.type === t)`: a tab's entries. */
  function View(xs: seq<Option<Json>>, t: string): (v: seq<Json>)
    ensures |v| == |Positions(xs, t)|
  {
    if xs == [] then []
    else
      var n := |xs| - 1;
      View(xs[..n], t) + if HasType(xs[n], t) then [xs[n].value] else []
  }

  /** The positions in the full list of a tab's entries, in order: where `list.indexOf(entry)`
      finds each of them when the entries are distinct objects. */
  function Positions(xs: seq<Option<Json>>, t: string): (ps: seq<nat>)
    ensures forall j :: 0 <= j < |ps| ==> ps[j] < |xs| && HasType(xs[ps[j]], t)
    ensures forall i, j :: 0 <= i < j < |ps| ==> ps[i] < ps[j]
    ensures forall p :: 0 <= p < |xs| && HasType(xs[p], t) ==> p in ps
  {
    if xs == [] then []
    else
      var n := |xs| - 1;
      Positions(xs[..n], t) + if HasType(xs[n], t) then [n] else []
  }

  /** The `j`-th entry of a tab is the entry at the `j`-th position: the edits a tab's card makes
      land on that entry of the full list. */
  lemma {:induction false} ViewAtPositions(xs: seq<Option<Json>>, t: string)
    ensures forall j :: 0 <= j < |View(xs, t)| ==> Some(View(xs, t)[j]) == xs[Positions(xs, t)[j]]
  {
    if xs != [] {
      var n := |xs| - 1;
      ViewAtPositions(xs[..n], t);
    }
  }

  /** Changing a field other than `type` of an existing entry keeps both tabs' positions. */
  lemma {:induction false} UpdateKeepsTabs(xs: seq<Option<Json>>, index: nat, field: string, value: Json, t: string)
    requires index < |xs| && xs[index].Some? && xs[index].value.Obj? && field != "type"
    ensures Positions(Updated(xs, index, field, value), t) == Positions(xs, t)
  {
    var r := Updated(xs, index, field, value);
    assert forall p :: 0 <= p < |xs| ==> (HasType(r[p], t) <==> HasType(xs[p], t));
    SamePositions(r, xs, t);
  }

  lemma {:induction false} SamePositions(a: seq<Option<Json>>, b: seq<Option<Json>>, t: string)
    requires |a| == |b| && forall p :: 0 <= p < |a| ==> (HasType(a[p], t) <==> HasType(b[p], t))
    ensures Positions(a, t) == Positions(b, t)
  {
    if a != [] {
      var n := |a| - 1;
      SamePositions(a[..n], b[..n], t);
    }
  }

  class Section {
    const win: Window
    var education: seq<Option<Json>>

    constructor (win: Window)
      ensures this.win == win && education == Defaults()
    {
      this.win := win;
      education := Defaults();
    }

    /** The document holds the section's list. */
    predicate Synced()
      reads this, win
    {
      Mirrors(win.portfolioData, "education", education)
    }

    /** The mount effect: adopt the document's list, or seed the document with this one. */
    method Init() returns (ok: bool)
      modifies this, win
      ensures education == Adopted(old(win.portfolioData), "education", old(education))
      ensures win.portfolioData == Seeded(old(win.portfolioData), "education", old(education))
      ensures ok == SeedOk(old(win.portfolioData), "education") && win.storage == old(win.storage)
      ensures ok ==> Synced()
    {
      if SeedOk(win.portfolioData, "education") {
        SeedSynchronises(win.portfolioData, "education", education);
      }
      education, ok := AdoptOrSeed(win, "education", education);
    }

    /** `portfolioData.education = newEducation`, after the section's own state is set. */
    method Store() returns (ok: bool)
      modifies win
      ensures ok == SetKey(old(win.portfolioData), "education", Arr(education)).Success?
      ensures win.portfolioData == AfterSet(old(win.portfolioData), "education", Arr(education))
      ensures win.storage == old(win.storage) && (ok ==> Synced())
    {
      ok := win.AssignKey("education", Arr(education));
    }

    /** `addEducation(kind)`: one placeholder entry of that kind is appended. */
    method Add(kind: Kind) returns (ok: bool)
      modifies this, win
      ensures education == Append(old(education), NewEntry(kind))
      ensures win.portfolioData == AfterSet(old(win.portfolioData), "education", Arr(education))
      ensures ok == SetKey(old(win.portfolioData), "education", Arr(education)).Success?
      ensures win.storage == old(win.storage) && (ok ==> Synced())
    {
      education := Append(education, NewEntry(kind));
      ok := Store();
    }

    /** `removeEducation(index)`: the entry at `index` is dropped. */
    method Remove(index: nat) returns (ok: bool)
      modifies this, win
      ensures education == Without(old(education), index)
      ensures win.portfolioData == AfterSet(old(win.portfolioData), "education", Arr(education))
      ensures ok == SetKey(old(win.portfolioData), "education", Arr(education)).Success?
      ensures win.storage == old(win.storage) && (ok ==> Synced())
    {
      education := Without(education, index);
      ok := Store();
    }

    /** `updateEducationField(index, field, value)`: one field of one entry changes. */
    method Update(index: nat, field: Field, value: string) returns (ok: bool)
      modifies this, win
      ensures education == Updated(old(education), index, FieldName(field), Str(value))
      ensures win.portfolioData == AfterSet(old(win.portfolioData), "education", Arr(education))
      ensures ok == SetKey(old(win.portfolioData), "education", Arr(education)).Success?
      ensures win.storage == old(win.storage) && (ok ==> Synced())
    {
      education := Updated(education, index, FieldName(field), Str(value));
      ok := Store();
    }

    /** An edit on the `j`-th card of a tab: it targets that entry's position in the full list. */
    method UpdateInTab(kind: Kind, j: nat, field: Field, value: string) returns (ok: bool)
      requires j < |View(education, KindName(kind))|
      modifies this, win
      ensures var p := Positions(old(education), KindName(kind))[j];
              && Some(View(old(education), KindName(kind))[j]) == old(education)[p]
              && education == Updated(old(education), p, FieldName(field), Str(value))
      ensures win.portfolioData == AfterSet(old(win.portfolioData), "education", Arr(education))
      ensures win.storage == old(win.storage) && (ok ==> Synced())
    {
      ViewAtPositions(education, KindName(kind));
      var p := Positions(education, KindName(kind))[j];
      ok := Update(p, field, value);
    }

    /** The delete button on the `j`-th card of a tab. */
    method RemoveInTab(kind: Kind, j: nat) returns (ok: bool)
      requires j < |View(education, KindName(kind))|
      modifies this, win
      ensures var p := Positions(old(education), KindName(kind))[j];
              && Some(View(old(education), KindName(kind))[j]) == old(education)[p]
              && education == Without(old(education), p)
      ensures win.portfolioData == AfterSet(old(win.portfolioData), "education", Arr(education))
      ensures win.storage == old(win.storage) && (ok ==> Synced())
    {
      ViewAtPositions(education, KindName(kind));
      var p := Positions(education, KindName(kind))[j];
      ok := Remove(p);
    }
  }
}
