/** One social link's icon and its inline editor: draft type and URL, committed to the bar on
    Save and reset to the props on Cancel; and the choice of icon from the link's type. */
module EditableSocialIcon {
  import opened Wrappers
  import opened Json
  import opened Document
  import opened Lists
  import opened SocialIcons

  /** The icons a link can show. */
  datatype IconKind = Github | Linkedin | Twitter | Instagram | Facebook | Youtube | Dribbble | Figma | Globe

  /** The lower-case type string each brand icon answers to. */
  function IconName(k: IconKind): string {
    match k
    case Github => "github"
    case Linkedin => "linkedin"
    case Twitter => "twitter"
    case Instagram => "instagram"
    case Facebook => "facebook"
    case Youtube => "youtube"
    case Dribbble => "dribbble"
    case Figma => "figma"
    case Globe => "website"
  }

  /** `toLowerCase` of one character, for the characters whose lower case is a single ASCII
      letter: `A`..`Z` and the Kelvin sign. Other characters are left as they are. The dotted
      capital I (U+0130) lower-cases to `i` followed by U+0307, and no brand name holds U+0307.
      Every other character is already lower case or lower-cases to something outside ASCII.
      So in both cases a type holding such a character names no brand, and the icon is the same. */
  function LowerChar(c: char): (d: char)
    ensures 'A' <= c <= 'Z' ==> d as int == c as int + 32
    ensures !('A' <= c <= 'Z') && c != '\U{212A}' ==> d == c
  {
    if 'A' <= c <= 'Z' then (c as int + 32) as char
    else if c == '\U{212A}' then 'k'
    else c
  }

  function Lower(s: string): (r: string)
    ensures |r| == |s| && forall k :: 0 <= k < |s| ==> r[k] == LowerChar(s[k])
  {
    seq(|s|, k requires 0 <= k < |s| => LowerChar(s[k]))
  }

  /** The `switch` of `getIcon` on an already lower-cased type: the brand of that name, and the
      globe for anything else. */
  function IconNamed(l: string): (k: IconKind)
    ensures k != Globe ==> IconName(k) == l
    ensures k == Globe ==> forall b: IconKind :: b != Globe ==> IconName(b) != l
  {
    if l == "github" then Github
    else if l == "linkedin" then Linkedin
    else if l == "twitter" then Twitter
    else if l == "instagram" then Instagram
    else if l == "facebook" then Facebook
    else if l == "youtube" then Youtube
    else if l == "dribbble" then Dribbble
    else if l == "figma" then Figma
    else Globe
  }

  /** `getIcon(type)`: the type is lower-cased before it is matched. */
  function IconFor(t: string): IconKind {
    IconNamed(Lower(t))
  }

  /** Lower-casing twice is lower-casing once. */
  lemma LowerIdempotent(s: string)
    ensures Lower(Lower(s)) == Lower(s)
  {
  }

  /** The icon does not depend on case: two types that lower-case alike show the same icon, and a
      type shows the same icon as its lower-cased self. */
  lemma IconCaseInsensitive(a: string, b: string)
    requires Lower(a) == Lower(b)
    ensures IconFor(a) == IconFor(b)
    ensures IconFor(Lower(a)) == IconFor(a)
  {
    LowerIdempotent(a);
  }

  /** A type shows a brand icon exactly when it lower-cases to that brand's name, and the globe
      whenever it lower-cases to no brand's name. */
  lemma IconChoice(t: string, k: IconKind)
    requires k != Globe
    ensures IconFor(t) == k <==> Lower(t) == IconName(k)
    ensures IconFor(t) == Globe <==> forall b: IconKind :: b != Globe ==> IconName(b) != Lower(t)
  {
  }

  /** The platforms the type dropdown offers; choosing one sets the lower-cased name. */
  function Platforms(): seq<string> {
    ["Github", "Linkedin", "Twitter", "Instagram", "Facebook", "Youtube", "Dribbble", "Figma", "Website"]
  }

  /** What the icon renders as. */
  datatype Display = EditForm | EditableIcon | PlainLink

  class SocialIcon {
    const parent: Icons
    const index: nat
    const readOnly: bool
    /** The `type` and `url` props. */
    var propType: string
    var propUrl: string
    /** The drafts. */
    var socialType: string
    var socialUrl: string
    var isEditing: bool

    constructor (parent: Icons, index: nat, kind: string, url: string, readOnly: bool)
      ensures this.parent == parent && this.index == index && this.readOnly == readOnly
      ensures propType == kind && propUrl == url && socialType == kind && socialUrl == url && !isEditing
    {
      this.parent := parent;
      this.index := index;
      this.readOnly := readOnly;
      propType, propUrl := kind, url;
      socialType, socialUrl := kind, url;
      isEditing := false;
    }

    /** The editor form is shown only in edit mode, while editing, and when not read-only. */
    function Shown(isEditMode: bool): (d: Display)
      reads this
      ensures d == EditForm <==> isEditMode && isEditing && !readOnly
      ensures d == PlainLink <==> !isEditMode || readOnly
    {
      if isEditMode && isEditing && !readOnly then EditForm
      else if isEditMode && !readOnly then EditableIcon
      else PlainLink
    }

    /** The props effect: new `type` or `url` props reset the drafts. */
    method OnProps(kind: string, url: string)
      modifies this
      ensures propType == kind && propUrl == url && socialType == kind && socialUrl == url
      ensures isEditing == old(isEditing)
    {
      propType, propUrl := kind, url;
      socialType, socialUrl := kind, url;
    }

    /** The edit button. */
    method StartEditing()
      modifies this
      ensures isEditing && socialType == old(socialType) && socialUrl == old(socialUrl)
      ensures propType == old(propType) && propUrl == old(propUrl)
    {
      isEditing := true;
    }

    /** A dropdown item: the draft type becomes the platform's lower-cased name, which shows
        that platform's icon. */
    method ChoosePlatform(j: nat)
      requires j < |Platforms()|
      modifies this
      ensures socialType == Lower(Platforms()[j]) && socialUrl == old(socialUrl)
      ensures isEditing == old(isEditing) && propType == old(propType) && propUrl == old(propUrl)
    {
      socialType := Lower(Platforms()[j]);
    }

    /** The URL input. */
    method TypeUrl(url: string)
      modifies this
      ensures socialUrl == url && socialType == old(socialType)
      ensures isEditing == old(isEditing) && propType == old(propType) && propUrl == old(propUrl)
    {
      socialUrl := url;
    }

    /** `saveChanges`: the drafts go to the bar as entry `index`, and editing ends. When the
        document is not an object, `updateSocial`'s assignment throws and the form stays open. */
    method Save() returns (ok: bool)
      modifies this, parent, parent.win
      ensures parent.socialLinks == StoreAt(old(parent.socialLinks), index, Link(old(socialType), old(socialUrl)))
      ensures parent.win.portfolioData == AfterSet(old(parent.win.portfolioData), "socialLinks", Arr(parent.socialLinks))
      ensures ok == SetKey(old(parent.win.portfolioData), "socialLinks", Arr(parent.socialLinks)).Success?
      ensures parent.win.storage == old(parent.win.storage) && (ok ==> parent.Synced())
      ensures isEditing == (old(isEditing) && !ok)
      ensures socialType == old(socialType) && socialUrl == old(socialUrl)
      ensures propType == old(propType) && propUrl == old(propUrl)
    {
      ok := parent.UpdateSocial(index, socialType, socialUrl);
      if ok {
        isEditing := false;
      }
    }

    /** `cancelChanges`: the drafts go back to the props, and editing ends. */
    method Cancel()
      modifies this
      ensures socialType == propType && socialUrl == propUrl && !isEditing
      ensures propType == old(propType) && propUrl == old(propUrl)
    {
      socialType, socialUrl := propType, propUrl;
      isEditing := false;
    }

    /** The remove button, which the edit form shows only while the bar has more than one link:
        the link at `index` is dropped, and a list without holes is never left empty. */
    method Remove(isEditMode: bool) returns (removed: bool, ok: bool)
      modifies parent, parent.win
      ensures removed == (Shown(isEditMode) == EditForm && RemoveOffered(old(parent.socialLinks)))
      ensures removed ==> parent.socialLinks == Without(old(parent.socialLinks), index)
      ensures removed ==> parent.win.portfolioData == AfterSet(old(parent.win.portfolioData), "socialLinks", Arr(parent.socialLinks))
      ensures removed ==> ok == SetKey(old(parent.win.portfolioData), "socialLinks", Arr(parent.socialLinks)).Success?
      ensures !removed ==> parent.socialLinks == old(parent.socialLinks) && parent.win.portfolioData == old(parent.win.portfolioData) && !ok
      ensures Dense(old(parent.socialLinks)) && |old(parent.socialLinks)| >= 1 ==> |parent.socialLinks| >= 1
      ensures parent.win.storage == old(parent.win.storage)
    {
      removed, ok := false, false;
      if Shown(isEditMode) == EditForm && RemoveOffered(parent.socialLinks) {
        if Dense(parent.socialLinks) {
          OfferedRemovalKeepsOne(parent.socialLinks, index);
        }
        removed := true;
        ok := parent.Remove(index);
      }
    }
  }

  /** Every platform in the dropdown shows its own brand icon once chosen, and "Website" (the
      last) shows the globe. */
  lemma PlatformIcons()
    ensures |Platforms()| == 9
    ensures forall j :: 0 <= j < |Platforms()| ==> IconFor(Platforms()[j]) == PlatformIcon(j)
  {
    forall j | 0 <= j < 9 ensures IconFor(Platforms()[j]) == PlatformIcon(j) {
      PlatformNames(j);
      NamedIcon(PlatformIcon(j));
    }
  }

  /** Each brand's name selects that brand. */
  lemma NamedIcon(k: IconKind)
    ensures IconNamed(IconName(k)) == k
  {
  }

  /** Each platform lower-cases to the name of the icon it stands for. */
  lemma PlatformNames(j: nat)
    requires j < 9
    ensures Lower(Platforms()[j]) == IconName(PlatformIcon(j))
  {
    if j == 0 {
      LowerCapitalised('G', "ithub");
    } else if j == 1 {
      LowerCapitalised('L', "inkedin");
    } else if j == 2 {
      LowerCapitalised('T', "witter");
    } else if j == 3 {
      LowerCapitalised('I', "nstagram");
    } else if j == 4 {
      LowerCapitalised('F', "acebook");
    } else if j == 5 {
      LowerCapitalised('Y', "outube");
    } else if j == 6 {
      LowerCapitalised('D', "ribbble");
    } else if j == 7 {
      LowerCapitalised('F', "igma");
    } else {
      LowerCapitalised('W', "ebsite");
    }
  }

  /** A capitalised lower-case word lower-cases to the word with its first letter lowered. */
  lemma LowerCapitalised(c: char, rest: string)
    requires 'A' <= c <= 'Z' && forall k :: 0 <= k < |rest| ==> 'a' <= rest[k] <= 'z'
    ensures Lower([c] + rest) == [(c as int + 32) as char] + rest
  {
    assert Lower(rest) == rest;
  }

  /** The icon each dropdown entry stands for. */
  function PlatformIcon(j: nat): (k: IconKind)
    requires j < 9
    ensures (k == Globe) == (j == 8)
  {
    [Github, Linkedin, Twitter, Instagram, Facebook, Youtube, Dribbble, Figma, Globe][j]
  }
}
