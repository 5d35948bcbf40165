/** The projects section: a list of project records in the document under `projects`, and the
    project card, which keeps a local copy of its project and writes every edit back to
    `projects[index]`. */
module ProjectsSection {
  import opened Wrappers
  import opened Text
  import opened Json
  import opened Document

  /** A project record. */
  function Project(title: string, description: string, technologies: seq<string>): Json {
    Obj(map[
      "title" := Str(title), "description" := Str(description),
      "image" := Str("/placeholder.svg?height=200&width=400"),
      "technologies" := Arr(Strings(technologies)), "liveUrl" := Str("#"), "sourceUrl" := Str("#")])
  }

  /** The projects the section starts with. */
  function Defaults(): seq<Option<Json>> {
    [ Some(Project("E-commerce Website",
        "A fully responsive e-commerce platform with cart functionality and payment integration.",
        ["React", "Next.js", "Tailwind CSS", "Stripe"])),
      Some(Project("Portfolio Website",
        "A clean and modern portfolio website showcasing creative work and projects.",
        ["HTML", "CSS", "JavaScript", "GSAP"])),
      Some(Project("Task Management App",
        "A productivity app that helps users organize tasks and track progress.",
        ["React", "Redux", "Firebase", "Material UI"])),
      Some(Project("Weather Dashboard",
        "A weather application that displays current and forecasted weather data.",
        ["JavaScript", "API", "Chart.js", "Bootstrap"])),
      Some(Project("Recipe Finder",
        "An app that allows users to search for recipes based on ingredients they have.",
        ["React", "Node.js", "MongoDB", "Express"])),
      Some(Project("Social Media Dashboard",
        "A dashboard that aggregates and displays social media metrics and analytics.",
        ["Vue.js", "D3.js", "Firebase", "Vuetify"])) ]
  }

  /** The fields of a project a card edits. */
  datatype ProjectField = Title | Description | Image | Technologies | LiveUrl | SourceUrl

  function FieldKey(f: ProjectField): string {
    match f
    case Title => "title"
    case Description => "description"
    case Image => "image"
    case Technologies => "technologies"
    case LiveUrl => "liveUrl"
    case SourceUrl => "sourceUrl"
  }

  /** `{...p, [key]: value}`: `key` holds `value`, and every other property `p` has is copied. */
  function WithField(p: Json, key: string, value: Json): (r: Json)
    ensures r.Obj? && Prop(Some(r), key) == Some(value)
    ensures p.Obj? ==> r.fields.Keys == p.fields.Keys + {key}
    ensures p.Obj? ==> forall k :: k != key ==> Prop(Some(r), k) == Prop(Some(p), k)
    ensures p.Num? || p.Bool? || p.Null? ==> r.fields == map[key := value]
  {
    Obj(Spread(Some(p))[key := value])
  }

  /** `techString.split(",").map(t => t.trim())`: item `k` is the `k`-th comma-separated
      piece with the white space at its two ends cut off. */
  function ParseTechnologies(s: string): (items: seq<string>)
    ensures |items| == Count(s, ',') + 1 == |Split(s, ',')|
    ensures forall k :: 0 <= k < |items| ==> WhitespaceAround(Split(s, ',')[k], items[k])
    ensures forall k :: 0 <= k < |items| ==> ',' !in items[k] && Trimmed(items[k])
  {
    var parts := Split(s, ',');
    var items := seq(|parts|, k requires 0 <= k < |parts| => Trim(parts[k]));
    assert forall k :: 0 <= k < |parts| ==> ',' !in items[k] by {
      forall k | 0 <= k < |parts| ensures ',' !in items[k] {
        TrimInfix(parts[k]);
      }
    }
    items
  }

  /** A trimmed string is a piece of the original, so it has no character the original lacks. */
  lemma TrimInfix(s: string)
    ensures forall c :: c in Trim(s) ==> c in s
  {
    var t := TrimStart(s);
    assert forall c :: c in TrimEnd(t) ==> c in t;
    assert forall c :: c in t ==> c in s;
  }

  /** The pieces of `items.join(", ")` between the commas: the first item, then each later item
      after its one space. */
  function Spaced(items: seq<string>): (ps: seq<string>)
    ensures |ps| == |items|
  {
    seq(|items|, k requires 0 <= k < |items| => if k == 0 then items[0] else [' '] + items[k])
  }

  lemma {:induction false} JoinSpaced(items: seq<string>)
    requires |items| >= 1
    ensures Join(items, ", ") == Join(Spaced(items), ",")
  {
    if |items| > 1 {
      var tail := items[1..];
      var sp, st := Spaced(items), Spaced(tail);
      var rest := Join(tail, ", ");
      calc {
        Join(sp, ",");
        sp[0] + "," + Join(sp[1..], ",");
        { assert sp[1..] == [[' '] + tail[0]] + st[1..]; }
        items[0] + "," + Join([[' '] + tail[0]] + st[1..], ",");
        { JoinConsHead(' ', tail[0], st[1..], ","); }
        items[0] + "," + ([' '] + Join([tail[0]] + st[1..], ","));
        { assert st == [tail[0]] + st[1..]; }
        items[0] + "," + ([' '] + Join(st, ","));
        { JoinSpaced(tail); }
        items[0] + "," + ([' '] + rest);
        { assert items[0] + "," + ([' '] + rest) == items[0] + ", " + rest; }
        items[0] + ", " + rest;
        Join(items, ", ");
      }
    }
  }

  /** The technologies input shows `items.join(", ")`; typing that text back gives the same
      items, as long as there is at least one, none holds a comma and none has white space at
      either end. */
  lemma TechnologiesRoundTrip(items: seq<string>)
    requires |items| >= 1
    requires forall k :: 0 <= k < |items| ==> ',' !in items[k] && Trimmed(items[k])
    ensures ParseTechnologies(Join(items, ", ")) == items
  {
    SplitJoined(items);
    var sp := Spaced(items);
    var r := ParseTechnologies(Join(items, ", "));
    assert |r| == |items|;
    forall k | 0 <= k < |items| ensures r[k] == items[k] {
      assert r[k] == Trim(sp[k]);
      TrimSpaced(items, k);
    }
  }

  /** `items.join(", ").split(",")` gives the spaced pieces back. */
  lemma SplitJoined(items: seq<string>)
    requires |items| >= 1
    requires forall k :: 0 <= k < |items| ==> ',' !in items[k]
    ensures Split(Join(items, ", "), ',') == Spaced(items)
  {
    JoinSpaced(items);
    var sp := Spaced(items);
    assert forall k :: 0 <= k < |sp| ==> ',' !in sp[k];
    JoinThenSplit(sp, ',');
  }

  lemma TrimSpaced(items: seq<string>, k: nat)
    requires k < |items| && Trimmed(items[k])
    ensures Trim(Spaced(items)[k]) == items[k]
  {
    var sp := Spaced(items);
    if k > 0 {
      assert sp[k] == [' '] + items[k];
      TrimSkipsLeadingSpace(items[k]);
    } else {
      assert sp[k] == items[k];
    }
  }

  /** An emptied technologies input gives one empty technology, not an empty list. */
  lemma EmptyTechnologies()
    ensures ParseTechnologies("") == [""]
  {
    assert Trim("") == "";
  }

  class Section {
    const win: Window
    var projects: seq<Option<Json>>

    constructor (win: Window)
      ensures this.win == win && projects == Defaults()
    {
      this.win := win;
      projects := Defaults();
    }

    /** The mount effect: adopt the document's projects, or seed the document with these. */
    method Init() returns (ok: bool)
      modifies this, win
      ensures projects == Adopted(old(win.portfolioData), "projects", old(projects))
      ensures win.portfolioData == Seeded(old(win.portfolioData), "projects", old(projects))
      ensures ok == SeedOk(old(win.portfolioData), "projects") && win.storage == old(win.storage)
      ensures ok ==> Mirrors(win.portfolioData, "projects", projects)
    {
      if SeedOk(win.portfolioData, "projects") {
        SeedSynchronises(win.portfolioData, "projects", projects);
      }
      projects, ok := AdoptOrSeed(win, "projects", projects);
    }
  }

  class Card {
    const win: Window
    const index: nat
    var projectData: Json

    constructor (win: Window, index: nat, project: Json)
      ensures this.win == win && this.index == index && projectData == project
    {
      this.win := win;
      this.index := index;
      projectData := project;
    }

    /** The props effect: a new `project` prop replaces the local copy. */
    method OnProps(project: Json)
      modifies this
      ensures projectData == project
    {
      projectData := project;
    }

    /** `updateProject(field, value)`: the local copy gets `value` under `field`, and the whole
        updated project is written to `projects[index]` of the document, which is created, and
        its `projects` list too, when missing. */
    method UpdateProject(field: ProjectField, value: Json) returns (ok: bool)
      modifies this, win
      ensures projectData == WithField(old(projectData), FieldKey(field), value)
      ensures var d := OrEmpty(old(win.portfolioData));
              var r := PutIndexed(d, "projects", index, projectData);
              ok == r.Success? && win.portfolioData == Some(if ok then r.value else d)
      ensures ok ==> Element(Prop(win.portfolioData, "projects").value, index) == Some(projectData)
      ensures ok ==> forall k :: k != "projects" ==> Prop(win.portfolioData, k) == Prop(Some(OrEmpty(old(win.portfolioData))), k)
      ensures win.storage == old(win.storage)
    {
      projectData := WithField(projectData, FieldKey(field), value);
      PutIndexedEffect(OrEmpty(win.portfolioData), "projects", index, projectData);
      ok := StoreIndexed(win, "projects", index, projectData);
    }

    /** `updateTechnologies(text)`: the comma-separated text, each piece trimmed, becomes the
        project's `technologies` array. */
    method UpdateTechnologies(techString: string) returns (ok: bool)
      modifies this, win
      ensures projectData == WithField(old(projectData), "technologies", Arr(Strings(ParseTechnologies(techString))))
      ensures var d := OrEmpty(old(win.portfolioData));
              var r := PutIndexed(d, "projects", index, projectData);
              ok == r.Success? && win.portfolioData == Some(if ok then r.value else d)
      ensures win.storage == old(win.storage)
    {
      var techArray := ParseTechnologies(techString);
      ok := UpdateProject(Technologies, Arr(Strings(techArray)));
    }
  }
}
