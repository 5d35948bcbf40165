/** The skills section: a list of `{name, level}` entries in the document under `skills`, and a
    latch that starts the progress-bar animation the first time the section scrolls into view. */
module SkillsSection {
  import opened Wrappers
  import opened Json
  import opened Document
  import opened Lists

  /** `{name, level}`. */
  function SkillEntry(name: string, level: int): Json {
    Obj(map["name" := Str(name), "level" := Num(level)])
  }

  /** The skills the section starts with. */
  function Defaults(): seq<Option<Json>> {
    [ Some(SkillEntry("HTML & CSS", 95)), Some(SkillEntry("JavaScript", 90)),
      Some(SkillEntry("React", 85)), Some(SkillEntry("Next.js", 80)),
      Some(SkillEntry("TypeScript", 75)), Some(SkillEntry("UI/UX Design", 70)) ]
  }

  /** The entry `addSkill` appends. */
  function NewSkill(): Json {
    SkillEntry("New Skill", 50)
  }

  class Section {
    const win: Window
    var skills: seq<Option<Json>>
    var animated: bool

    constructor (win: Window)
      ensures this.win == win && skills == Defaults() && !animated
    {
      this.win := win;
      skills := Defaults();
      animated := false;
    }

    /** The document holds the section's list. */
    predicate Synced()
      reads this, win
    {
      Mirrors(win.portfolioData, "skills", skills)
    }

    /** The mount effect: adopt the document's skills, or seed the document with these. */
    method Init() returns (ok: bool)
      modifies this, win
      ensures skills == Adopted(old(win.portfolioData), "skills", old(skills)) && animated == old(animated)
      ensures win.portfolioData == Seeded(old(win.portfolioData), "skills", old(skills))
      ensures ok == SeedOk(old(win.portfolioData), "skills") && win.storage == old(win.storage)
      ensures ok ==> Synced()
    {
      if SeedOk(win.portfolioData, "skills") {
        SeedSynchronises(win.portfolioData, "skills", skills);
      }
      skills, ok := AdoptOrSeed(win, "skills", skills);
    }

    /** The in-view effect: `animated` is set the first time the section is in view and is never
        cleared. */
    method OnInView(inView: bool)
      modifies this
      ensures animated == (old(animated) || inView) && skills == old(skills)
    {
      if inView && !animated {
        animated := true;
      }
    }

    /** `portfolioData.skills = newSkills`, after the section's own state is set. */
    method Store() returns (ok: bool)
      modifies win
      ensures ok == SetKey(old(win.portfolioData), "skills", Arr(skills)).Success?
      ensures win.portfolioData == AfterSet(old(win.portfolioData), "skills", Arr(skills))
      ensures win.storage == old(win.storage) && (ok ==> Synced())
    {
      ok := win.AssignKey("skills", Arr(skills));
    }

    /** `addSkill()`: the placeholder skill is appended. */
    method Add() returns (ok: bool)
      modifies this, win
      ensures skills == Append(old(skills), NewSkill()) && animated == old(animated)
      ensures win.portfolioData == AfterSet(old(win.portfolioData), "skills", Arr(skills))
      ensures ok == SetKey(old(win.portfolioData), "skills", Arr(skills)).Success?
      ensures win.storage == old(win.storage) && (ok ==> Synced())
    {
      skills := Append(skills, NewSkill());
      ok := Store();
    }

    /** `removeSkill(index)`: the skill at `index` is dropped. */
    method Remove(index: nat) returns (ok: bool)
      modifies this, win
      ensures skills == Without(old(skills), index) && animated == old(animated)
      ensures win.portfolioData == AfterSet(old(win.portfolioData), "skills", Arr(skills))
      ensures ok == SetKey(old(win.portfolioData), "skills", Arr(skills)).Success?
      ensures win.storage == old(win.storage) && (ok ==> Synced())
    {
      skills := Without(skills, index);
      ok := Store();
    }
  }
}
