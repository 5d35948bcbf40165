/** One skill's editor: local name and level, each change written back to `skills[index]` of the
    document as a fresh `{name, level}` entry. */
module EditableSkill {
  import opened Wrappers
  import opened Json
  import opened Document
  import opened SkillsSection

  class Skill {
    const win: Window
    const index: nat
    var skillName: string
    var skillLevel: int

    constructor (win: Window, index: nat, name: string, level: int)
      ensures this.win == win && this.index == index && skillName == name && skillLevel == level
    {
      this.win := win;
      this.index := index;
      skillName, skillLevel := name, level;
    }

    /** The props effect: new `name` or `level` props reset the local state. */
    method OnProps(name: string, level: int)
      modifies this
      ensures skillName == name && skillLevel == level
    {
      skillName, skillLevel := name, level;
    }

    /** `updateGlobalData(name, level)`: the document and its `skills` list are created when
        missing, and element `index` becomes exactly `{name, level}`. The intermediate `{}` the
        source stores first is overwritten at once, so it is not visible. */
    method UpdateGlobalData(name: string, level: int) returns (ok: bool)
      modifies win
      ensures var d := OrEmpty(old(win.portfolioData));
              var r := PutIndexed(d, "skills", index, SkillEntry(name, level));
              ok == r.Success? && win.portfolioData == Some(if ok then r.value else d)
      ensures ok ==> Element(Prop(win.portfolioData, "skills").value, index) == Some(SkillEntry(name, level))
      ensures ok ==> forall j :: j != index ==>
                Element(Prop(win.portfolioData, "skills").value, j) ==
                  if Truthy(Prop(old(win.portfolioData), "skills")) then Element(Prop(old(win.portfolioData), "skills").value, j) else None
      ensures ok ==> forall k :: k != "skills" ==> Prop(win.portfolioData, k) == Prop(Some(OrEmpty(old(win.portfolioData))), k)
      ensures win.storage == old(win.storage)
    {
      PutIndexedEffect(OrEmpty(win.portfolioData), "skills", index, SkillEntry(name, level));
      ok := StoreIndexed(win, "skills", index, SkillEntry(name, level));
    }

    /** The name input: the new name is kept with the current level. */
    method HandleNameChange(newName: string) returns (ok: bool)
      modifies this, win
      ensures skillName == newName && skillLevel == old(skillLevel)
      ensures var d := OrEmpty(old(win.portfolioData));
              var r := PutIndexed(d, "skills", index, SkillEntry(newName, old(skillLevel)));
              ok == r.Success? && win.portfolioData == Some(if ok then r.value else d)
      ensures win.storage == old(win.storage)
    {
      skillName := newName;
      ok := UpdateGlobalData(newName, skillLevel);
    }

    /** The slider and the number input: the first value becomes the level, with the current
        name. Nothing clamps it: the number input passes its parsed text straight through. */
    method HandleLevelChange(value: seq<int>) returns (ok: bool)
      requires |value| > 0
      modifies this, win
      ensures skillLevel == value[0] && skillName == old(skillName)
      ensures var d := OrEmpty(old(win.portfolioData));
              var r := PutIndexed(d, "skills", index, SkillEntry(old(skillName), value[0]));
              ok == r.Success? && win.portfolioData == Some(if ok then r.value else d)
      ensures win.storage == old(win.storage)
    {
      var newLevel := value[0];
      skillLevel := newLevel;
      ok := UpdateGlobalData(skillName, newLevel);
    }
  }
}
