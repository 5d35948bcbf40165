/** The social links bar: a list of `{type, url}` links in the document under `socialLinks`. */
module SocialIcons {
  import opened Wrappers
  import opened Json
  import opened Document
  import opened Lists

  /** `{type, url}`. */
  function Link(kind: string, url: string): Json {
    Obj(map["type" := Str(kind), "url" := Str(url)])
  }

  /** The links the bar starts with. */
  function Defaults(): seq<Option<Json>> {
    [ Some(Link("github", "https://github.com")), Some(Link("linkedin", "https://linkedin.com")),
      Some(Link("twitter", "https://twitter.com")), Some(Link("instagram", "https://instagram.com")) ]
  }

  /** The link `addSocial` appends. */
  function NewLink(): Json {
    Link("website", "https://")
  }

  /** Each icon gets a remove button only while the bar has more than one link. */
  predicate RemoveOffered(links: seq<Option<Json>>) {
    |links| > 1
  }

  /** Removing through an offered button never empties a list without holes. */
  lemma OfferedRemovalKeepsOne(links: seq<Option<Json>>, index: int)
    requires Dense(links) && RemoveOffered(links)
    ensures |Without(links, index)| == |links| - 1 || |Without(links, index)| == |links|
    ensures |Without(links, index)| >= 1
  {
    WithoutKeepsOne(links, index);
  }

  class Icons {
    const win: Window
    var socialLinks: seq<Option<Json>>

    constructor (win: Window)
      ensures this.win == win && socialLinks == Defaults()
    {
      this.win := win;
      socialLinks := Defaults();
    }

    /** The document holds the bar's list. */
    predicate Synced()
      reads this, win
    {
      Mirrors(win.portfolioData, "socialLinks", socialLinks)
    }

    /** The mount effect: adopt the document's links, or seed the document with these. */
    method Init() returns (ok: bool)
      modifies this, win
      ensures socialLinks == Adopted(old(win.portfolioData), "socialLinks", old(socialLinks))
      ensures win.portfolioData == Seeded(old(win.portfolioData), "socialLinks", old(socialLinks))
      ensures ok == SeedOk(old(win.portfolioData), "socialLinks") && win.storage == old(win.storage)
      ensures ok ==> Synced()
    {
      if SeedOk(win.portfolioData, "socialLinks") {
        SeedSynchronises(win.portfolioData, "socialLinks", socialLinks);
      }
      socialLinks, ok := AdoptOrSeed(win, "socialLinks", socialLinks);
    }

    /** `portfolioData.socialLinks = newLinks`, after the bar's own state is set. */
    method Store() returns (ok: bool)
      modifies win
      ensures ok == SetKey(old(win.portfolioData), "socialLinks", Arr(socialLinks)).Success?
      ensures win.portfolioData == AfterSet(old(win.portfolioData), "socialLinks", Arr(socialLinks))
      ensures win.storage == old(win.storage) && (ok ==> Synced())
    {
      ok := win.AssignKey("socialLinks", Arr(socialLinks));
    }

    /** `updateSocial(index, type, url)`: on a copy of the list, entry `index` becomes
        `{type, url}`; every other entry stays as it was. */
    method UpdateSocial(index: nat, kind: string, url: string) returns (ok: bool)
      modifies this, win
      ensures socialLinks == StoreAt(old(socialLinks), index, Link(kind, url))
      ensures win.portfolioData == AfterSet(old(win.portfolioData), "socialLinks", Arr(socialLinks))
      ensures ok == SetKey(old(win.portfolioData), "socialLinks", Arr(socialLinks)).Success?
      ensures win.storage == old(win.storage) && (ok ==> Synced())
    {
      socialLinks := StoreAt(socialLinks, index, Link(kind, url));
      ok := Store();
    }

    /** `addSocial()`: the placeholder link is appended. */
    method Add() returns (ok: bool)
      modifies this, win
      ensures socialLinks == Append(old(socialLinks), NewLink())
      ensures win.portfolioData == AfterSet(old(win.portfolioData), "socialLinks", Arr(socialLinks))
      ensures ok == SetKey(old(win.portfolioData), "socialLinks", Arr(socialLinks)).Success?
      ensures win.storage == old(win.storage) && (ok ==> Synced())
    {
      socialLinks := Append(socialLinks, NewLink());
      ok := Store();
    }

    /** `removeSocial(index)`: the link at `index` is dropped. */
    method Remove(index: nat) returns (ok: bool)
      modifies this, win
      ensures socialLinks == Without(old(socialLinks), index)
      ensures win.portfolioData == AfterSet(old(win.portfolioData), "socialLinks", Arr(socialLinks))
      ensures ok == SetKey(old(win.portfolioData), "socialLinks", Arr(socialLinks)).Success?
      ensures win.storage == old(win.storage) && (ok ==> Synced())
    {
      socialLinks := Without(socialLinks, index);
      ok := Store();
    }
  }
}
