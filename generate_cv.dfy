/** `generateCV`: the CV is laid out on one page from the document (or, without one, from
    built-in sample data) as a list of draw commands, each placed by a vertical cursor that moves
    down through the sections; the file is named after the user. */
module GenerateCv {
  import opened Wrappers
  import opened Text
  import opened Json
  import opened Document
  import EducationSection
  import SkillsSection
  import ProjectsSection

  /** One `doc.text` call: a single line, or a text jsPDF has wrapped to the 170 mm column
      (`splitTextToSize`) and draws from `y` downwards. Fonts and colours are not modelled. */
  datatype Draw =
    | Text(text: string, x: int, y: int)
    | Wrapped(text: string, x: int, y: int)

  /** The three about paragraphs of the sample data. */
  function SampleAbout(): seq<string> {
    [
        "I'm a passionate frontend developer with over 5 years of experience creating beautiful, responsive, and user-friendly websites. I specialize in React, Next.js, and modern CSS frameworks like Tailwind.",
        "Based in New York City, I graduated from Columbia University with a degree in Computer Science. I've worked with startups and established companies to bring their digital visions to life.",
        "When I'm not coding, you can find me hiking, reading science fiction, or experimenting with new technologies. My mission is to create digital experiences that are both beautiful and functional."]
  }

  /** `getDefaultData()`, with its lists as parameters. */
  function SampleDocument(about: seq<string>, education: seq<Option<Json>>, skills: seq<Option<Json>>,
                          projects: seq<Option<Json>>): Json {
    Obj(map[
      "name" := Str("Your Name"),
      "title" := Str("Frontend Developer & UI/UX Designer"),
      "email" := Str("hello@yourname.com"),
      "location" := Str("New York, USA"),
      "about" := Arr(Strings(about)), "education" := Arr(education),
      "skills" := Arr(skills), "projects" := Arr(projects)])
  }

  function SampleEducation(): seq<Option<Json>> {
    [ Some(EducationSection.Entry("Columbia University", "2015-2019", "Bachelor of Science in Computer Science", "", "education")),
      Some(EducationSection.Entry("Udacity", "2020", "Front End Web Developer Nanodegree", "https://confirm.udacity.com/example", "certification")) ]
  }

  /** The first three of the projects section's own sample projects. */
  function SampleProjects(): seq<Option<Json>> {
    [ Some(ProjectsSection.Project("E-commerce Website",
        "A fully responsive e-commerce platform with cart functionality and payment integration.",
        ["React", "Next.js", "Tailwind CSS", "Stripe"])),
      Some(ProjectsSection.Project("Portfolio Website",
        "A clean and modern portfolio website showcasing creative work and projects.",
        ["HTML", "CSS", "JavaScript", "GSAP"])),
      Some(ProjectsSection.Project("Task Management App",
        "A productivity app that helps users organize tasks and track progress.",
        ["React", "Redux", "Firebase", "Material UI"])) ]
  }

  /** `getDefaultData()`: the sample document used when there is none. */
  function DefaultData(): Json {
    // the same six skills the skills section starts with
    SampleDocument(SampleAbout(), SampleEducation(), SkillsSection.Defaults(), SampleProjects())
  }

  /** `window.portfolioData || getDefaultData()`. */
  function Data(pd: Option<Json>): Json {
    if Truthy(pd) then pd.value else DefaultData()
  }

  /** `data[key]`. */
  function Field(data: Json, key: string): Option<Json> {
    Prop(Some(data), key)
  }

  /** `(data[key] || [])` for a list field. */
  function List(data: Json, key: string): seq<Option<Json>> {
    var v := Field(data, key);
    if Truthy(v) && v.value.Arr? then v.value.elems else []
  }

  /** `${v || fallback}`. */
  function TextOr(v: Option<Json>, fallback: string): string {
    if Truthy(v) then JsString(v.value) else fallback
  }

  /** `data.name || "Your Name"`. */
  function UserName(data: Json): string {
    TextOr(Field(data, "name"), "Your Name")
  }

  function TitleText(data: Json): string {
    TextOr(Field(data, "title"), "Frontend Developer")
  }

  function EmailLine(data: Json): string {
    "Email: " + TextOr(Field(data, "email"), "hello@example.com")
  }

  function LocationLine(data: Json): string {
    "Location: " + TextOr(Field(data, "location"), "New York, USA")
  }

  /** The about paragraphs joined with single spaces. */
  function AboutText(data: Json): string {
    Join(ElementTexts(List(data, "about")), " ")
  }

  /** The entries listed under the heading, and the certifications, each in list order. */
  function EducationEntries(data: Json): seq<Json> {
    EducationSection.View(List(data, "education"), "education")
  }

  function Certifications(data: Json): seq<Json> {
    EducationSection.View(List(data, "education"), "certification")
  }

  /** The skills `forEach` prints: every present one, and on a list without holes all of
      them, in order. */
  function Skills(data: Json): (ss: seq<Json>)
    ensures var es := List(data, "skills");
      forall k :: 0 <= k < |es| && es[k].Some? ==> es[k].value in ss
    ensures var es := List(data, "skills");
      (forall k :: 0 <= k < |es| ==> es[k].Some?) ==>
        |ss| == |es| && forall k :: 0 <= k < |es| ==> ss[k] == es[k].value
  {
    var es := List(data, "skills");
    PresentAll(es);
    if (forall k :: 0 <= k < |es| ==> es[k].Some?) then
      PresentDense(es); Present(es)
    else
      Present(es)
  }

  /** `projects.slice(0, 3)`, whose holes `forEach` skips: at most three projects, every
      present one among the first three, and on a list without holes exactly the first
      `min(3, length)` of them, in order. */
  function Projects(data: Json): (ps: seq<Json>)
    ensures |ps| <= 3
    ensures var es := List(data, "projects");
      forall k :: 0 <= k < |es| && k < 3 && es[k].Some? ==> es[k].value in ps
    ensures var es := List(data, "projects");
      (forall k :: 0 <= k < |es| ==> es[k].Some?) ==>
        |ps| == (if |es| < 3 then |es| else 3) && forall k :: 0 <= k < |ps| ==> ps[k] == es[k].value
  {
    var es := List(data, "projects");
    var first := es[..if |es| < 3 then |es| else 3];
    PresentAll(first);
    if (forall k :: 0 <= k < |es| ==> es[k].Some?) then
      PresentDense(first); Present(first)
    else
      Present(first)
  }

  /** `String(e[key])`. */
  function Show(e: Json, key: string): string {
    Stringify(Prop(Some(e), key))
  }

  predicate IsText(v: Option<Json>) {
    v.Some? && v.value.Str?
  }

  /** What `generateCV` needs of the data not to throw: the name and title are strings when
      given, the list fields are arrays when given, no listed entry, skill or project is `null`,
      every education entry has a string institution, and each printed project a string title,
      a technologies array and a string description. */
  predicate CvShaped(data: Json) {
    && (Truthy(Field(data, "name")) ==> IsText(Field(data, "name")))
    && (Truthy(Field(data, "title")) ==> IsText(Field(data, "title")))
    && (forall key :: key in {"about", "education", "skills", "projects"} && Truthy(Field(data, key)) ==> Field(data, key).value.Arr?)
    && (forall k :: 0 <= k < |List(data, "education")| && List(data, "education")[k].Some? ==> !List(data, "education")[k].value.Null?)
    && (forall k :: 0 <= k < |List(data, "skills")| && List(data, "skills")[k].Some? ==> !List(data, "skills")[k].value.Null?)
    && (forall k :: 0 <= k < |EducationEntries(data)| ==> IsText(Prop(Some(EducationEntries(data)[k]), "institution")))
    && (forall k :: 0 <= k < |Projects(data)| ==> ProjectShaped(Projects(data)[k]))
  }

  predicate ProjectShaped(p: Json) {
    && IsText(Prop(Some(p), "title")) && IsText(Prop(Some(p), "description"))
    && Prop(Some(p), "technologies").Some? && Prop(Some(p), "technologies").value.Arr?
  }

  /** The cursor never moves up: every command is at or below the ones before it. */
  predicate Rising(ds: seq<Draw>) {
    forall i, j :: 0 <= i < j < |ds| ==> ds[i].y <= ds[j].y
  }

  predicate From(ds: seq<Draw>, lo: int) {
    forall k :: 0 <= k < |ds| ==> lo <= ds[k].y
  }

  predicate UpTo(ds: seq<Draw>, hi: int) {
    forall k :: 0 <= k < |ds| ==> ds[k].y <= hi
  }

  /** The bullet the source writes before each certification, exactly as its text has it. */
  const Bullet := "\U{00E2}\U{20AC}\U{00A2} "

  /** The texts each entry prints: an education entry's institution and its dates with the
      qualification; a certification's bullet line; a skill's `name - level%`; a project's title,
      technologies and description. */
  function EducationRow(e: Json): (string, string) {
    (Show(e, "institution"), Show(e, "dates") + " - " + Show(e, "qualification"))
  }

  function CertLine(c: Json): string {
    Bullet + Show(c, "qualification") + " - " + Show(c, "institution") + " (" + Show(c, "dates") + ")"
  }

  function SkillLine(s: Json): string {
    Show(s, "name") + " - " + Show(s, "level") + "%"
  }

  function TechLine(p: Json): string {
    var t := Prop(Some(p), "technologies");
    "Technologies: " + Join(ElementTexts(if t.Some? && t.value.Arr? then t.value.elems else []), ", ")
  }

  function DescriptionText(p: Json): string {
    var d := Prop(Some(p), "description");
    if d.Some? && d.value.Str? then d.value.s else ""
  }

  function ProjectRow(p: Json): (string, string, string) {
    (Show(p, "title"), TechLine(p), DescriptionText(p))
  }

  /** The texts of a list of entries, in list order. */
  function EducationRows(es: seq<Json>): (rows: seq<(string, string)>)
    ensures |rows| == |es|
  {
    seq(|es|, k requires 0 <= k < |es| => EducationRow(es[k]))
  }

  function CertTexts(cs: seq<Json>): (ts: seq<string>)
    ensures |ts| == |cs|
  {
    seq(|cs|, k requires 0 <= k < |cs| => CertLine(cs[k]))
  }

  function SkillTexts(ss: seq<Json>): (ts: seq<string>)
    ensures |ts| == |ss|
  {
    seq(|ss|, k requires 0 <= k < |ss| => SkillLine(ss[k]))
  }

  function ProjectRows(ps: seq<Json>): (rows: seq<(string, string, string)>)
    ensures |rows| == |ps|
  {
    seq(|ps|, k requires 0 <= k < |ps| => ProjectRow(ps[k]))
  }

  /** An education entry: the institution, and 5 units below it the dates and the qualification. */
  function EducationLines(rows: seq<(string, string)>, y: int): (ds: seq<Draw>)
    ensures |ds| == 2 * |rows|
  {
    if rows == [] then []
    else
      var n := |rows| - 1;
      EducationLines(rows[..n], y) + [Text(rows[n].0, 20, y + 15 * n), Text(rows[n].1, 20, y + 15 * n + 5)]
  }

  /** Entry `k` is drawn 15 units below entry `k - 1`. */
  lemma {:induction false} EducationLinesAt(rows: seq<(string, string)>, y: int, k: nat)
    requires k < |rows|
    ensures EducationLines(rows, y)[2 * k] == Text(rows[k].0, 20, y + 15 * k)
    ensures EducationLines(rows, y)[2 * k + 1] == Text(rows[k].1, 20, y + 15 * k + 5)
  {
    var n := |rows| - 1;
    if k < n {
      EducationLinesAt(rows[..n], y, k);
    }
  }

  lemma {:induction false} EducationLinesRise(rows: seq<(string, string)>, y: int)
    ensures var ds := EducationLines(rows, y); Rising(ds) && From(ds, y) && UpTo(ds, y + 15 * |rows|)
  {
    if rows != [] {
      var n := |rows| - 1;
      EducationLinesRise(rows[..n], y);
      var last := [Text(rows[n].0, 20, y + 15 * n), Text(rows[n].1, 20, y + 15 * n + 5)];
      RisingTwo(last[0], last[1], y + 15 * n, y + 15 * |rows|);
      RisingConcat(EducationLines(rows[..n], y), last, y, y + 15 * n, y + 15 * |rows|);
    }
  }

  /** One indented bullet line per certification. */
  function CertLines(ts: seq<string>, y: int): (ds: seq<Draw>)
    ensures |ds| == |ts|
  {
    if ts == [] then []
    else
      var n := |ts| - 1;
      CertLines(ts[..n], y) + [Text(ts[n], 25, y + 6 * n)]
  }

  /** Certification `k` is drawn 6 units below certification `k - 1`. */
  lemma {:induction false} CertLinesAt(ts: seq<string>, y: int, k: nat)
    requires k < |ts|
    ensures CertLines(ts, y)[k] == Text(ts[k], 25, y + 6 * k)
  {
    var n := |ts| - 1;
    if k < n {
      CertLinesAt(ts[..n], y, k);
    }
  }

  lemma {:induction false} CertLinesRise(ts: seq<string>, y: int)
    ensures var ds := CertLines(ts, y); Rising(ds) && From(ds, y) && UpTo(ds, y + 6 * |ts|)
  {
    if ts != [] {
      var n := |ts| - 1;
      CertLinesRise(ts[..n], y);
      RisingConcat(CertLines(ts[..n], y), [Text(ts[n], 25, y + 6 * n)], y, y + 6 * n, y + 6 * |ts|);
    }
  }

  /** How far the certifications block moves the cursor: nothing without certifications. */
  function CertSpan(c: nat): nat {
    if c > 0 then 8 + 6 * c + 4 else 0
  }

  /** The certifications block, present only when there is a certification. */
  function CertBlock(ts: seq<string>, y: int): (ds: seq<Draw>)
    ensures |ds| == if |ts| > 0 then |ts| + 1 else 0
  {
    if |ts| == 0 then [] else [Text("Certifications:", 20, y)] + CertLines(ts, y + 8)
  }

  lemma CertBlockRise(ts: seq<string>, y: int)
    ensures var ds := CertBlock(ts, y); Rising(ds) && From(ds, y) && UpTo(ds, y + CertSpan(|ts|))
  {
    if ts != [] {
      CertLinesRise(ts, y + 8);
      RisingConcat([Text("Certifications:", 20, y)], CertLines(ts, y + 8), y, y + 8, y + CertSpan(|ts|));
    }
  }

  /** One line per skill. */
  function SkillLines(ts: seq<string>, y: int): (ds: seq<Draw>)
    ensures |ds| == |ts|
  {
    if ts == [] then []
    else
      var n := |ts| - 1;
      SkillLines(ts[..n], y) + [Text(ts[n], 20, y + 5 * n)]
  }

  /** Skill `k` is drawn 5 units below skill `k - 1`. */
  lemma {:induction false} SkillLinesAt(ts: seq<string>, y: int, k: nat)
    requires k < |ts|
    ensures SkillLines(ts, y)[k] == Text(ts[k], 20, y + 5 * k)
  {
    var n := |ts| - 1;
    if k < n {
      SkillLinesAt(ts[..n], y, k);
    }
  }

  lemma {:induction false} SkillLinesRise(ts: seq<string>, y: int)
    ensures var ds := SkillLines(ts, y); Rising(ds) && From(ds, y) && UpTo(ds, y + 5 * |ts|)
  {
    if ts != [] {
      var n := |ts| - 1;
      SkillLinesRise(ts[..n], y);
      RisingConcat(SkillLines(ts[..n], y), [Text(ts[n], 20, y + 5 * n)], y, y + 5 * n, y + 5 * |ts|);
    }
  }

  /** A project: its title, 5 units below its technologies, 5 more below its wrapped description. */
  function ProjectLines(rows: seq<(string, string, string)>, y: int): (ds: seq<Draw>)
    ensures |ds| == 3 * |rows|
  {
    if rows == [] then []
    else
      var n := |rows| - 1;
      ProjectLines(rows[..n], y)
        + [Text(rows[n].0, 20, y + 20 * n), Text(rows[n].1, 20, y + 20 * n + 5), Wrapped(rows[n].2, 20, y + 20 * n + 10)]
  }

  /** Project `k` is drawn 20 units below project `k - 1`. */
  lemma {:induction false} ProjectLinesAt(rows: seq<(string, string, string)>, y: int, k: nat)
    requires k < |rows|
    ensures ProjectLines(rows, y)[3 * k] == Text(rows[k].0, 20, y + 20 * k)
    ensures ProjectLines(rows, y)[3 * k + 1] == Text(rows[k].1, 20, y + 20 * k + 5)
    ensures ProjectLines(rows, y)[3 * k + 2] == Wrapped(rows[k].2, 20, y + 20 * k + 10)
  {
    var n := |rows| - 1;
    if k < n {
      ProjectLinesAt(rows[..n], y, k);
    }
  }

  lemma {:induction false} ProjectLinesRise(rows: seq<(string, string, string)>, y: int)
    ensures var ds := ProjectLines(rows, y); Rising(ds) && From(ds, y) && UpTo(ds, y + 20 * |rows|)
  {
    if rows != [] {
      var n := |rows| - 1;
      ProjectLinesRise(rows[..n], y);
      var last := [Text(rows[n].0, 20, y + 20 * n), Text(rows[n].1, 20, y + 20 * n + 5), Wrapped(rows[n].2, 20, y + 20 * n + 10)];
      RisingThree(last[0], last[1], last[2], y + 20 * n, y + 20 * |rows|);
      RisingConcat(ProjectLines(rows[..n], y), last, y, y + 20 * n, y + 20 * |rows|);
    }
  }

  /** The header: name, title, contact lines, the About heading and the about text. */
  function Header(name: string, title: string, email: string, location: string, about: string): seq<Draw> {
    [ Text(name, 20, 20), Text(title, 20, 30), Text(email, 20, 40), Text(location, 20, 45),
      Text("About", 20, 55), Wrapped(about, 20, 65) ]
  }

  function DataHeader(data: Json): seq<Draw> {
    Header(UserName(data), TitleText(data), EmailLine(data), LocationLine(data), AboutText(data))
  }

  /** Where the cursor stands at each heading: the education heading below the about text,
      the certifications below the education entries, then the skills, then the projects. */
  function EducationY(aboutLines: nat): int {
    65 + 5 * aboutLines
  }

  function CertificationsY(y: int, educations: nat): int {
    y + 10 + 15 * educations
  }

  function SkillsY(y: int, educations: nat, certifications: nat): int {
    CertificationsY(y, educations) + CertSpan(certifications)
  }

  function ProjectsY(y: int, educations: nat, certifications: nat, skills: nat): int {
    SkillsY(y, educations, certifications) + 10 + 5 * skills + 5
  }

  /** The education heading, the entries and the certifications block, down to the skills heading. */
  function UpperBody(y: int, er: seq<(string, string)>, ct: seq<string>): seq<Draw> {
    [Text("Education & Certifications", 20, y)] + EducationLines(er, y + 10) + CertBlock(ct, CertificationsY(y, |er|))
  }

  /** The skills heading and lines, and the projects heading and entries. */
  function LowerBody(sy: int, st: seq<string>, pr: seq<(string, string, string)>): seq<Draw> {
    [Text("Skills", 20, sy)] + SkillLines(st, sy + 10) + [Text("Projects", 20, sy + 10 + 5 * |st| + 5)]
      + ProjectLines(pr, sy + 10 + 5 * |st| + 15)
  }

  /** The page below the header, from the education heading at `y` on, given the texts of the
      education entries, certifications, skills and projects. */
  function Body(y: int, er: seq<(string, string)>, ct: seq<string>, st: seq<string>, pr: seq<(string, string, string)>): seq<Draw> {
    UpperBody(y, er, ct) + LowerBody(SkillsY(y, |er|, |ct|), st, pr)
  }

  /** The whole page, when the about text wraps to `lines` lines. */
  function Layout(data: Json, lines: nat): seq<Draw> {
    DataHeader(data)
      + Body(EducationY(lines), EducationRows(EducationEntries(data)), CertTexts(Certifications(data)),
             SkillTexts(Skills(data)), ProjectRows(Projects(data)))
  }

  /** The saved file's name: the user name with every run of white space replaced by `_`. */
  function FileName(userName: string): string {
    CollapseWhitespace(userName, "_") + CvSuffix
  }

  const CvSuffix := "_CV.pdf"

  lemma RisingTwo(a: Draw, b: Draw, lo: int, hi: int)
    requires lo <= a.y <= b.y <= hi
    ensures Rising([a, b]) && From([a, b], lo) && UpTo([a, b], hi)
  {
  }

  lemma RisingThree(a: Draw, b: Draw, c: Draw, lo: int, hi: int)
    requires lo <= a.y <= b.y <= c.y <= hi
    ensures Rising([a, b, c]) && From([a, b, c], lo) && UpTo([a, b, c], hi)
  {
  }

  /** Appending a block that starts where the one before ends keeps the page rising. */
  lemma RisingConcat(a: seq<Draw>, b: seq<Draw>, lo: int, m: int, hi: int)
    requires Rising(a) && From(a, lo) && UpTo(a, m)
    requires Rising(b) && From(b, m) && UpTo(b, hi)
    requires lo <= m <= hi
    ensures Rising(a + b) && From(a + b, lo) && UpTo(a + b, hi)
  {
    forall i, j | 0 <= i < j < |a + b| ensures (a + b)[i].y <= (a + b)[j].y {
      if j < |a| {
      } else if i >= |a| {
        assert (a + b)[i] == b[i - |a|] && (a + b)[j] == b[j - |a|];
      } else {
        assert (a + b)[i] == a[i] && (a + b)[j] == b[j - |a|];
      }
    }
  }

  lemma UpperBodyRises(y: int, er: seq<(string, string)>, ct: seq<string>)
    ensures var ds := UpperBody(y, er, ct); Rising(ds) && From(ds, y) && UpTo(ds, SkillsY(y, |er|, |ct|))
  {
    var cy := CertificationsY(y, |er|);
    var a0 := [Text("Education & Certifications", 20, y)];
    EducationLinesRise(er, y + 10);
    RisingConcat(a0, EducationLines(er, y + 10), y, y + 10, cy);
    CertBlockRise(ct, cy);
    RisingConcat(a0 + EducationLines(er, y + 10), CertBlock(ct, cy), y, cy, SkillsY(y, |er|, |ct|));
  }

  lemma LowerBodyRises(sy: int, st: seq<string>, pr: seq<(string, string, string)>)
    ensures var ds := LowerBody(sy, st, pr); Rising(ds) && From(ds, sy) && UpTo(ds, sy + 10 + 5 * |st| + 15 + 20 * |pr|)
  {
    var py := sy + 10 + 5 * |st| + 5;
    var a1 := [Text("Skills", 20, sy)] + SkillLines(st, sy + 10);
    assert Rising(a1) && From(a1, sy) && UpTo(a1, py - 5) by {
      SkillLinesRise(st, sy + 10);
      RisingConcat([Text("Skills", 20, sy)], SkillLines(st, sy + 10), sy, sy + 10, py - 5);
    }
    var a2 := a1 + [Text("Projects", 20, py)];
    assert Rising(a2) && From(a2, sy) && UpTo(a2, py) by {
      RisingConcat(a1, [Text("Projects", 20, py)], sy, py, py);
    }
    ProjectLinesRise(pr, py + 10);
    RisingConcat(a2, ProjectLines(pr, py + 10), sy, py + 10, py + 10 + 20 * |pr|);
  }

  /** The page below the header never moves up, and lies between its first heading and where
      the cursor ends after the last project. */
  lemma BodyRises(y: int, er: seq<(string, string)>, ct: seq<string>, st: seq<string>, pr: seq<(string, string, string)>)
    ensures var ds := Body(y, er, ct, st, pr);
            Rising(ds) && From(ds, y) && UpTo(ds, ProjectsY(y, |er|, |ct|, |st|) + 10 + 20 * |pr|)
  {
    var sy := SkillsY(y, |er|, |ct|);
    var hi := sy + 10 + 5 * |st| + 15 + 20 * |pr|;
    var up, low := UpperBody(y, er, ct), LowerBody(sy, st, pr);
    assert Rising(up) && From(up, y) && UpTo(up, sy) by { UpperBodyRises(y, er, ct); }
    assert Rising(low) && From(low, sy) && UpTo(low, hi) by { LowerBodyRises(sy, st, pr); }
    RisingConcat(up, low, y, sy, hi);
  }

  lemma HeaderRises(name: string, title: string, email: string, location: string, about: string)
    ensures var ds := Header(name, title, email, location, about); Rising(ds) && From(ds, 20) && UpTo(ds, 65)
  {
  }

  /** The cursor never decreases through the page: every draw command is at or below the ones
      drawn before it. */
  lemma LayoutRises(data: Json, lines: nat)
    ensures Rising(Layout(data, lines))
  {
    var y := EducationY(lines);
    var er, ct := EducationRows(EducationEntries(data)), CertTexts(Certifications(data));
    var st, pr := SkillTexts(Skills(data)), ProjectRows(Projects(data));
    var hi := ProjectsY(y, |er|, |ct|, |st|) + 10 + 20 * |pr|;
    var body := Body(y, er, ct, st, pr);
    assert Rising(body) && From(body, y) && UpTo(body, hi) by { BodyRises(y, er, ct, st, pr); }
    var head := DataHeader(data);
    assert Rising(head) && From(head, 20) && UpTo(head, 65) by {
      HeaderRises(UserName(data), TitleText(data), EmailLine(data), LocationLine(data), AboutText(data));
    }
    RisingConcat(head, body, 20, 65, hi);
  }

  /** Indexing into a concatenation of draw lists. */
  lemma AtLeft(a: seq<Draw>, b: seq<Draw>, i: nat)
    requires i < |a|
    ensures (a + b)[i] == a[i]
  {
  }

  lemma AtRight(a: seq<Draw>, b: seq<Draw>, i: nat)
    requires |a| <= i < |a| + |b|
    ensures (a + b)[i] == b[i - |a|]
  {
  }

  /** Education entry `k` is on lines `1 + 2k` and `2 + 2k` of the upper part, 15 units below
      the one before, the first 10 units below the heading. */
  lemma UpperBodyEducationAt(y: int, er: seq<(string, string)>, ct: seq<string>, k: nat)
    requires k < |er|
    ensures UpperBody(y, er, ct)[0] == Text("Education & Certifications", 20, y)
    ensures UpperBody(y, er, ct)[1 + 2 * k] == Text(er[k].0, 20, y + 10 + 15 * k)
    ensures UpperBody(y, er, ct)[2 + 2 * k] == Text(er[k].1, 20, y + 10 + 15 * k + 5)
  {
    var h := [Text("Education & Certifications", 20, y)];
    var el := EducationLines(er, y + 10);
    var cb := CertBlock(ct, CertificationsY(y, |er|));
    EducationLinesAt(er, y + 10, k);
    AtLeft(h, el, 0);
    AtRight(h, el, 1 + 2 * k);
    AtRight(h, el, 2 + 2 * k);
    AtLeft(h + el, cb, 0);
    AtLeft(h + el, cb, 1 + 2 * k);
    AtLeft(h + el, cb, 2 + 2 * k);
  }

  /** With certifications, their heading follows the education entries, 10 + 15 per entry below
      the education heading, and certification `k` is 8 + 6k units below it. */
  lemma UpperBodyCertificationAt(y: int, er: seq<(string, string)>, ct: seq<string>, k: nat)
    requires k < |ct|
    ensures UpperBody(y, er, ct)[1 + 2 * |er|] == Text("Certifications:", 20, y + 10 + 15 * |er|)
    ensures UpperBody(y, er, ct)[2 + 2 * |er| + k] == Text(ct[k], 25, y + 10 + 15 * |er| + 8 + 6 * k)
  {
    var cy := CertificationsY(y, |er|);
    var a := [Text("Education & Certifications", 20, y)] + EducationLines(er, y + 10);
    var cl := CertLines(ct, cy + 8);
    CertLinesAt(ct, cy + 8, k);
    AtLeft([Text("Certifications:", 20, cy)], cl, 0);
    AtRight([Text("Certifications:", 20, cy)], cl, 1 + k);
    AtRight(a, CertBlock(ct, cy), 1 + 2 * |er|);
    AtRight(a, CertBlock(ct, cy), 2 + 2 * |er| + k);
  }

  /** Without certifications the upper part is the heading and the entries, and the skills heading
      comes right after the last entry's advance. */
  lemma NoCertificationBlock(y: int, er: seq<(string, string)>)
    ensures UpperBody(y, er, []) == [Text("Education & Certifications", 20, y)] + EducationLines(er, y + 10)
    ensures SkillsY(y, |er|, 0) == y + 10 + 15 * |er|
  {
    assert CertBlock([], CertificationsY(y, |er|)) == [];
  }

  /** The skills heading, then skill `k` 10 + 5k units below it, in the lower part of the body. */
  lemma LowerBodySkillAt(sy: int, st: seq<string>, pr: seq<(string, string, string)>, k: nat)
    requires k < |st|
    ensures LowerBody(sy, st, pr)[0] == Text("Skills", 20, sy)
    ensures LowerBody(sy, st, pr)[1 + k] == Text(st[k], 20, sy + 10 + 5 * k)
  {
    var sl, pl := SkillLines(st, sy + 10), ProjectLines(pr, sy + 10 + 5 * |st| + 15);
    var a1 := [Text("Skills", 20, sy)] + sl;
    var a2 := a1 + [Text("Projects", 20, sy + 10 + 5 * |st| + 5)];
    assert LowerBody(sy, st, pr) == a2 + pl;
    SkillLinesAt(st, sy + 10, k);
    AtRight([Text("Skills", 20, sy)], sl, 1 + k);
    AtLeft(a1, [Text("Projects", 20, sy + 10 + 5 * |st| + 5)], 0);
    AtLeft(a1, [Text("Projects", 20, sy + 10 + 5 * |st| + 5)], 1 + k);
    AtLeft(a2, pl, 0);
    AtLeft(a2, pl, 1 + k);
  }

  /** The projects heading 5 units below the last skill's advance, then project `k` 10 + 20k
      units below it, in the lower part of the body. */
  lemma LowerBodyProjectAt(sy: int, st: seq<string>, pr: seq<(string, string, string)>, k: nat)
    requires k < |pr|
    ensures var py := sy + 10 + 5 * |st| + 5;
            var low := LowerBody(sy, st, pr);
            && low[1 + |st|] == Text("Projects", 20, py)
            && low[2 + |st| + 3 * k] == Text(pr[k].0, 20, py + 10 + 20 * k)
            && low[3 + |st| + 3 * k] == Text(pr[k].1, 20, py + 10 + 20 * k + 5)
            && low[4 + |st| + 3 * k] == Wrapped(pr[k].2, 20, py + 10 + 20 * k + 10)
  {
    var py := sy + 10 + 5 * |st| + 5;
    var sl, pl := SkillLines(st, sy + 10), ProjectLines(pr, py + 10);
    var a1 := [Text("Skills", 20, sy)] + sl;
    var a2 := a1 + [Text("Projects", 20, py)];
    assert LowerBody(sy, st, pr) == a2 + pl;
    ProjectLinesAt(pr, py + 10, k);
    AtRight(a1, [Text("Projects", 20, py)], 1 + |st|);
    AtLeft(a2, pl, 1 + |st|);
    AtRight(a2, pl, 2 + |st| + 3 * k);
    AtRight(a2, pl, 3 + |st| + 3 * k);
    AtRight(a2, pl, 4 + |st| + 3 * k);
  }

  /** The page has the six header commands, then the education heading at 65 + 5 per about
      line, then the body. */
  lemma LayoutStart(data: Json, lines: nat)
    ensures |Layout(data, lines)| ==
              9 + 2 * |EducationEntries(data)|
              + (if |Certifications(data)| > 0 then |Certifications(data)| + 1 else 0)
              + |Skills(data)| + 3 * |Projects(data)|
    ensures Layout(data, lines)[6] == Text("Education & Certifications", 20, 65 + 5 * lines)
  {
  }

  /** The sample data, used when there is no document, has the sample name, title and contact
      lines, whatever its lists. */
  lemma SampleHeader(about: seq<string>, education: seq<Option<Json>>, skills: seq<Option<Json>>, projects: seq<Option<Json>>)
    ensures var d := SampleDocument(about, education, skills, projects);
            && UserName(d) == "Your Name"
            && TitleText(d) == "Frontend Developer & UI/UX Designer"
            && EmailLine(d) == "Email: " + "hello@yourname.com"
            && LocationLine(d) == "Location: " + "New York, USA"
  {
  }

  /** The sample data is laid out without throwing when its education entries are objects with
      a string institution, its skills are objects and its projects are shaped for the CV. */
  lemma SampleShaped(about: seq<string>, education: seq<Option<Json>>, skills: seq<Option<Json>>, projects: seq<Option<Json>>)
    requires forall k :: 0 <= k < |education| ==> education[k].Some? && education[k].value.Obj? && IsText(Prop(education[k], "institution"))
    requires forall k :: 0 <= k < |skills| ==> skills[k].Some? && skills[k].value.Obj?
    requires forall k :: 0 <= k < |projects| ==> projects[k].Some? && ProjectShaped(projects[k].value)
    ensures CvShaped(SampleDocument(about, education, skills, projects))
  {
    var d := SampleDocument(about, education, skills, projects);
    SampleFields(about, education, skills, projects);
    EducationShaped(education);
    ProjectsShaped(d);
  }

  lemma SampleFields(about: seq<string>, education: seq<Option<Json>>, skills: seq<Option<Json>>, projects: seq<Option<Json>>)
    ensures var d := SampleDocument(about, education, skills, projects);
            && IsText(Field(d, "name")) && IsText(Field(d, "title"))
            && (forall key :: key in {"about", "education", "skills", "projects"} ==> Field(d, key).Some? && Field(d, key).value.Arr?)
            && List(d, "education") == education && List(d, "skills") == skills && List(d, "projects") == projects
  {
  }

  lemma EducationShaped(education: seq<Option<Json>>)
    requires forall k :: 0 <= k < |education| ==> education[k].Some? && education[k].value.Obj? && IsText(Prop(education[k], "institution"))
    ensures forall k :: 0 <= k < |EducationSection.View(education, "education")| ==>
              IsText(Prop(Some(EducationSection.View(education, "education")[k]), "institution"))
  {
    EducationSection.ViewAtPositions(education, "education");
  }

  lemma ProjectsShaped(data: Json)
    requires forall k :: 0 <= k < |List(data, "projects")| ==>
               List(data, "projects")[k].Some? && ProjectShaped(List(data, "projects")[k].value)
    ensures forall k :: 0 <= k < |Projects(data)| ==> ProjectShaped(Projects(data)[k])
  {
    var es := List(data, "projects");
    var first := es[..if |es| < 3 then |es| else 3];
    PresentFrom(first);
    forall k | 0 <= k < |Projects(data)| ensures ProjectShaped(Projects(data)[k]) {
      assert Projects(data)[k] in Present(first);
    }
  }

  /** Missing name, title, email and location fall back to fixed texts; the title falls back to
      "Frontend Developer", not to the sample data's longer title. */
  lemma HeaderFallbacks(data: Json)
    requires forall key :: key in {"name", "title", "email", "location"} ==> !Truthy(Field(data, key))
    ensures UserName(data) == "Your Name"
    ensures TitleText(data) == "Frontend Developer"
    ensures EmailLine(data) == "Email: " + "hello@example.com"
    ensures LocationLine(data) == "Location: " + "New York, USA"
  {
    assert !Truthy(Field(data, "name")) && !Truthy(Field(data, "title"));
    assert !Truthy(Field(data, "email")) && !Truthy(Field(data, "location"));
  }

  /** The file name has no white space, ends in `_CV.pdf`, and is the name itself followed by
      `_CV.pdf` when the name has no white space. */
  lemma FileNameShape(userName: string)
    ensures NoWhitespace(FileName(userName))
    ensures |FileName(userName)| <= |userName| + |CvSuffix|
    ensures FileName(userName)[|FileName(userName)| - |CvSuffix|..] == CvSuffix
    ensures NoWhitespace(userName) ==> FileName(userName) == userName + CvSuffix
  {
    var c := CollapseWhitespace(userName, "_");
    assert NoWhitespace(c) && |c| <= |userName| by { CollapseWhitespaceRemovesAll(userName, "_"); }
    assert NoWhitespace(CvSuffix) by {
      forall k | 0 <= k < |CvSuffix| ensures !IsWhitespace(CvSuffix[k]) {}
    }
    NoWhitespaceAppend(c, CvSuffix);
    assert (c + CvSuffix)[|c|..] == CvSuffix;
    if NoWhitespace(userName) {
      CollapseWhitespaceIdentity(userName, "_");
    }
  }

  /** The file name of a user name made of words with white space around and between them:
      the words joined by `_`, one `_` for each outer run of white space, then `_CV.pdf`. */
  lemma FileNameWords(lead: string, ws: seq<string>, gaps: seq<string>, trail: string)
    requires |ws| >= 1 && |gaps| == |ws| - 1 && Words(ws) && Gaps(gaps)
    requires AllWhitespace(lead) && AllWhitespace(trail)
    ensures FileName(lead + Spell(ws, gaps) + trail)
            == (if lead == [] then "" else "_") + Join(ws, "_") + (if trail == [] then "" else "_") + CvSuffix
  {
    CollapseSpelled(lead, ws, gaps, trail, "_");
  }

  /** A first and a last name with any white-space run between them: `"Jane  Doe"` gives
      `Jane_Doe_CV.pdf`. */
  lemma FileNameTwoWords(first: string, gap: string, last: string)
    requires first != [] && last != [] && NoWhitespace(first) && NoWhitespace(last)
    requires gap != [] && AllWhitespace(gap)
    ensures FileName(first + gap + last) == first + "_" + last + CvSuffix
  {
    var ws, gaps := [first, last], [gap];
    assert Words(ws) && Gaps(gaps);
    assert ws[1..] == [last] && gaps[1..] == [];
    assert Spell(ws, gaps) == first + gap + last;
    assert Join(ws, "_") == first + "_" + last by {
      assert Join(ws[1..], "_") == last;
    }
    FileNameWords([], ws, gaps, []);
    assert [] + Spell(ws, gaps) + [] == first + gap + last;
  }

  /** The education entries loop. */
  method DrawEducation(entries: seq<Json>, y: int) returns (ds: seq<Draw>, yEnd: int)
    ensures ds == EducationLines(EducationRows(entries), y) && yEnd == y + 15 * |entries|
  {
    ghost var rows := EducationRows(entries);
    ds, yEnd := [], y;
    var i := 0;
    while i < |entries|
      invariant i <= |entries|
      invariant ds == EducationLines(rows[..i], y) && yEnd == y + 15 * i
    {
      var edu := entries[i];
      assert rows[..i + 1][..i] == rows[..i] && rows[i] == EducationRow(edu);
      ds := ds + [Text(Show(edu, "institution"), 20, yEnd)];
      ds := ds + [Text(Show(edu, "dates") + " - " + Show(edu, "qualification"), 20, yEnd + 5)];
      yEnd := yEnd + 15;
      i := i + 1;
    }
    assert rows[..i] == rows;
  }

  /** The certifications block: skipped without certifications. */
  method DrawCertifications(certs: seq<Json>, y: int) returns (ds: seq<Draw>, yEnd: int)
    ensures ds == CertBlock(CertTexts(certs), y) && yEnd == y + CertSpan(|certs|)
  {
    ghost var ts := CertTexts(certs);
    ds, yEnd := [], y;
    if |certs| > 0 {
      ds := ds + [Text("Certifications:", 20, yEnd)];
      yEnd := yEnd + 8;
      var i := 0;
      while i < |certs|
        invariant i <= |certs|
        invariant ds == [Text("Certifications:", 20, y)] + CertLines(ts[..i], y + 8)
        invariant yEnd == y + 8 + 6 * i
      {
        assert ts[..i + 1][..i] == ts[..i] && ts[i] == CertLine(certs[i]);
        ds := ds + [Text(CertLine(certs[i]), 25, yEnd)];
        yEnd := yEnd + 6;
        i := i + 1;
      }
      assert ts[..i] == ts;
      yEnd := yEnd + 4;
    }
  }

  /** The skills loop. */
  method DrawSkills(skills: seq<Json>, y: int) returns (ds: seq<Draw>, yEnd: int)
    ensures ds == SkillLines(SkillTexts(skills), y) && yEnd == y + 5 * |skills|
  {
    ghost var ts := SkillTexts(skills);
    ds, yEnd := [], y;
    var i := 0;
    while i < |skills|
      invariant i <= |skills|
      invariant ds == SkillLines(ts[..i], y) && yEnd == y + 5 * i
    {
      assert ts[..i + 1][..i] == ts[..i] && ts[i] == SkillLine(skills[i]);
      ds := ds + [Text(SkillLine(skills[i]), 20, yEnd)];
      yEnd := yEnd + 5;
      i := i + 1;
    }
    assert ts[..i] == ts;
  }

  /** The projects loop. */
  method DrawProjects(projects: seq<Json>, y: int) returns (ds: seq<Draw>, yEnd: int)
    ensures ds == ProjectLines(ProjectRows(projects), y) && yEnd == y + 20 * |projects|
  {
    ghost var rows := ProjectRows(projects);
    ds, yEnd := [], y;
    var i := 0;
    while i < |projects|
      invariant i <= |projects|
      invariant ds == ProjectLines(rows[..i], y) && yEnd == y + 20 * i
    {
      var project := projects[i];
      assert rows[..i + 1][..i] == rows[..i] && rows[i] == ProjectRow(project);
      ds := ds + [Text(Show(project, "title"), 20, yEnd)];
      var techText := TechLine(project);
      ds := ds + [Text(techText, 20, yEnd + 5)];
      ds := ds + [Wrapped(DescriptionText(project), 20, yEnd + 10)];
      yEnd := yEnd + 20;
      i := i + 1;
    }
    assert rows[..i] == rows;
  }

  /** The body of `generateCV()` once the data is chosen: the draw commands in order, and the
      file name. */
  method DrawPage(data: Json, lineCount: string -> nat) returns (draws: seq<Draw>, fileName: string)
    requires CvShaped(data)
    ensures draws == Layout(data, lineCount(AboutText(data)))
    ensures fileName == FileName(UserName(data))
  {
    var userName := UserName(data);
    draws := DrawHeader(data);
    var aboutLines := lineCount(AboutText(data));
    var yPos := 65 + aboutLines * 5;
    assert yPos == EducationY(aboutLines);
    var rest := DrawBody(yPos, EducationEntries(data), Certifications(data), Skills(data), Projects(data));
    draws := draws + rest;
    fileName := CollapseWhitespace(userName, "_") + CvSuffix;
  }

  /** The name, the title, the contact lines and the about paragraph. */
  method DrawHeader(data: Json) returns (draws: seq<Draw>)
    ensures draws == DataHeader(data)
  {
    draws := [Text(UserName(data), 20, 20), Text(TitleText(data), 20, 30)];
    draws := draws + [Text(EmailLine(data), 20, 40), Text(LocationLine(data), 20, 45)];
    draws := draws + [Text("About", 20, 55)];
    var aboutText := AboutText(data);
    draws := draws + [Wrapped(aboutText, 20, 65)];
  }

  /** The sections below the header, the cursor starting at the education heading. */
  method DrawBody(y: int, educationEntries: seq<Json>, certificationEntries: seq<Json>, skills: seq<Json>, projects: seq<Json>)
    returns (draws: seq<Draw>)
    ensures draws == Body(y, EducationRows(educationEntries), CertTexts(certificationEntries), SkillTexts(skills), ProjectRows(projects))
  {
    var yPos := y;
    draws := [Text("Education & Certifications", 20, yPos)];
    yPos := yPos + 10;
    var education, certifications;
    education, yPos := DrawEducation(educationEntries, yPos);
    assert yPos == CertificationsY(y, |educationEntries|);
    certifications, yPos := DrawCertifications(certificationEntries, yPos);
    assert yPos == SkillsY(y, |educationEntries|, |certificationEntries|);
    draws := draws + education + certifications;
    assert draws == UpperBody(y, EducationRows(educationEntries), CertTexts(certificationEntries));
    var lower := DrawSkillsAndProjects(yPos, skills, projects);
    draws := draws + lower;
  }

  /** The skills and projects sections, the cursor starting at the skills heading. */
  method DrawSkillsAndProjects(y: int, skills: seq<Json>, projects: seq<Json>) returns (draws: seq<Draw>)
    ensures draws == LowerBody(y, SkillTexts(skills), ProjectRows(projects))
  {
    var yPos := y;
    draws := [Text("Skills", 20, yPos)];
    yPos := yPos + 10;
    var skillLines, projectLines;
    skillLines, yPos := DrawSkills(skills, yPos);
    yPos := yPos + 5;
    assert yPos == y + 10 + 5 * |skills| + 5;
    draws := draws + skillLines + [Text("Projects", 20, yPos)];
    yPos := yPos + 10;
    projectLines, yPos := DrawProjects(projects, yPos);
    assert projectLines == ProjectLines(ProjectRows(projects), y + 10 + 5 * |skills| + 15);
    draws := draws + projectLines;
  }

  /** `generateCV()`: the document, or the sample data when there is none, laid out on the page. */
  method Generate(win: Window, lineCount: string -> nat) returns (draws: seq<Draw>, fileName: string)
    requires CvShaped(Data(win.portfolioData))
    ensures draws == Layout(Data(win.portfolioData), lineCount(AboutText(Data(win.portfolioData))))
    ensures fileName == FileName(UserName(Data(win.portfolioData)))
  {
    var portfolioData := Data(win.portfolioData);
    draws, fileName := DrawPage(portfolioData, lineCount);
  }
}
