/** The navigation bar's logo: draft type, text and image, committed to the document's `logo`
    on Save and restored from it on Cancel; and the two-part display of a text logo. */
module EditableLogo {
  import opened Wrappers
  import opened Text
  import opened Json
  import opened Document

  /** `{type, text, image}` built from the drafts. A draft that is `undefined` gives a key that
      the document cannot hold; reading it yields `undefined` just the same. */
  function LogoObject(logoType: Option<Json>, logoText: Option<Json>, logoImage: Option<Json>): (r: Json)
    ensures r.Obj?
    ensures Prop(Some(r), "type") == logoType && Prop(Some(r), "text") == logoText && Prop(Some(r), "image") == logoImage
    ensures r.fields.Keys <= {"type", "text", "image"}
  {
    var m: map<string, Json> := map[];
    var m := if logoType.Some? then m["type" := logoType.value] else m;
    var m := if logoText.Some? then m["text" := logoText.value] else m;
    var m := if logoImage.Some? then m["image" := logoImage.value] else m;
    Obj(m)
  }

  /** The document is `undefined` or `null`: reading `portfolioData.logo` throws. */
  predicate Unreadable(pd: Option<Json>) {
    pd.None? || pd.value.Null?
  }

  /** The first space-separated word of a text logo, shown highlighted, and the rest re-joined
      with single spaces, shown after it when there is more than one word. */
  function LogoWords(text: string): (r: (string, Option<string>))
    ensures ' ' !in r.0
    ensures r.1.Some? <==> ' ' in text
  {
    var parts := Split(text, ' ');
    CountPositive(text, ' ');
    (parts[0], if |parts| > 1 then Some(Join(parts[1..], " ")) else None)
  }

  /** The two parts give back the text: the first word alone when the text has no space, and
      otherwise the first word, one space and the rest. */
  lemma LogoWordsReassemble(text: string)
    ensures LogoWords(text).1.None? ==> LogoWords(text).0 == text
    ensures LogoWords(text).1.Some? ==> LogoWords(text).0 + " " + LogoWords(text).1.value == text
  {
    var parts := Split(text, ' ');
    SplitThenJoin(text, ' ');
    assert |parts| == 1 ==> Join(parts, " ") == parts[0];
  }

  class Logo {
    const win: Window
    var isEditing: bool
    var logoType: Option<Json>
    var logoText: Option<Json>
    var logoImage: Option<Json>

    /** The initial state: the type is "image" exactly when a default image is given. */
    constructor (win: Window, defaultText: string, defaultImage: string)
      ensures this.win == win && !isEditing
      ensures logoType == Some(Str(if defaultImage != "" then "image" else "text"))
      ensures logoText == Some(Str(defaultText)) && logoImage == Some(Str(defaultImage))
    {
      this.win := win;
      isEditing := false;
      logoType := Some(Str(if defaultImage != "" then "image" else "text"));
      logoText := Some(Str(defaultText));
      logoImage := Some(Str(defaultImage));
    }

    /** The mount effect. With a logo in the document, each of its truthy fields replaces the
        corresponding draft; without one, the drafts are written into the document as its logo,
        which fails when the document is not an object. */
    method Init() returns (ok: bool)
      modifies this, win
      ensures var d := OrEmpty(old(win.portfolioData));
              var logo := Prop(Some(d), "logo");
              if Truthy(logo) then
                && logoType == (if Truthy(Prop(logo, "type")) then Prop(logo, "type") else old(logoType))
                && logoText == (if Truthy(Prop(logo, "text")) then Prop(logo, "text") else old(logoText))
                && logoImage == (if Truthy(Prop(logo, "image")) then Prop(logo, "image") else old(logoImage))
                && win.portfolioData == Some(d) && ok
              else
                && logoType == old(logoType) && logoText == old(logoText) && logoImage == old(logoImage)
                && win.portfolioData == AfterSet(Some(d), "logo", LogoObject(logoType, logoText, logoImage))
                && ok == d.Obj?
      ensures isEditing == old(isEditing) && win.storage == old(win.storage)
    {
      win.EnsureDocument();
      var logo := Prop(win.portfolioData, "logo");
      ok := true;
      if Truthy(logo) {
        if Truthy(Prop(logo, "type")) {
          logoType := Prop(logo, "type");
        }
        if Truthy(Prop(logo, "text")) {
          logoText := Prop(logo, "text");
        }
        if Truthy(Prop(logo, "image")) {
          logoImage := Prop(logo, "image");
        }
      } else {
        ok := win.AssignKey("logo", LogoObject(logoType, logoText, logoImage));
      }
    }

    /** Clicking the logo in edit mode. */
    method StartEditing()
      modifies this
      ensures isEditing && logoType == old(logoType) && logoText == old(logoText) && logoImage == old(logoImage)
    {
      isEditing := true;
    }

    /** The Text and Image buttons. */
    method ChooseType(image: bool)
      modifies this
      ensures logoType == Some(Str(if image then "image" else "text"))
      ensures isEditing == old(isEditing) && logoText == old(logoText) && logoImage == old(logoImage)
    {
      logoType := Some(Str(if image then "image" else "text"));
    }

    /** The text input. */
    method TypeText(text: string)
      modifies this
      ensures logoText == Some(Str(text))
      ensures isEditing == old(isEditing) && logoType == old(logoType) && logoImage == old(logoImage)
    {
      logoText := Some(Str(text));
    }

    /** `saveChanges`: all three drafts become the document's logo and editing ends; when the
        document is not an object the assignment throws and editing goes on. */
    method Save() returns (ok: bool)
      modifies this, win
      ensures ok == SetKey(old(win.portfolioData), "logo", LogoObject(logoType, logoText, logoImage)).Success?
      ensures win.portfolioData == AfterSet(old(win.portfolioData), "logo", LogoObject(logoType, logoText, logoImage))
      ensures ok ==> (&& Prop(Prop(win.portfolioData, "logo"), "type") == logoType
                      && Prop(Prop(win.portfolioData, "logo"), "text") == logoText
                      && Prop(Prop(win.portfolioData, "logo"), "image") == logoImage)
      ensures isEditing == (old(isEditing) && !ok)
      ensures logoType == old(logoType) && logoText == old(logoText) && logoImage == old(logoImage)
      ensures win.storage == old(win.storage)
    {
      ok := win.AssignKey("logo", LogoObject(logoType, logoText, logoImage));
      if ok {
        isEditing := false;
      }
    }

    /** `cancelChanges`: with a logo in the document the drafts are read back from it (an absent
        field reads as `undefined`), and editing ends. Reading the logo of an `undefined` or
        `null` document throws first, and nothing changes. */
    method Cancel() returns (ok: bool)
      modifies this
      ensures ok == !Unreadable(win.portfolioData)
      ensures var logo := Prop(win.portfolioData, "logo");
              if ok && Truthy(logo) then
                logoType == Prop(logo, "type") && logoText == Prop(logo, "text") && logoImage == Prop(logo, "image")
              else
                logoType == old(logoType) && logoText == old(logoText) && logoImage == old(logoImage)
      ensures isEditing == (old(isEditing) && !ok)
    {
      if Unreadable(win.portfolioData) {
        return false;
      }
      var logo := Prop(win.portfolioData, "logo");
      if Truthy(logo) {
        logoType, logoText, logoImage := Prop(logo, "type"), Prop(logo, "text"), Prop(logo, "image");
      }
      isEditing := false;
      ok := true;
    }

    /** `updateLogoImage(newImage)`: the draft is always set; the document's logo gets the image
        too when it exists. The write needs a readable document, and a logo that is an object. */
    method UpdateLogoImage(newImage: string) returns (ok: bool)
      modifies this, win
      ensures logoImage == Some(Str(newImage)) && logoType == old(logoType) && logoText == old(logoText)
      ensures isEditing == old(isEditing) && win.storage == old(win.storage)
      ensures var logo := Prop(old(win.portfolioData), "logo");
              ok == (!Unreadable(old(win.portfolioData)) && (!Truthy(logo) || logo.value.Obj?))
      ensures var logo := Prop(old(win.portfolioData), "logo");
              if ok && Truthy(logo) then
                && win.portfolioData == AfterSet(old(win.portfolioData), "logo", SetKey(logo, "image", Str(newImage)).value)
                && Prop(Prop(win.portfolioData, "logo"), "image") == Some(Str(newImage))
                && (forall k :: k != "image" ==> Prop(Prop(win.portfolioData, "logo"), k) == Prop(logo, k))
              else win.portfolioData == old(win.portfolioData)
    {
      logoImage := Some(Str(newImage));
      if Unreadable(win.portfolioData) {
        return false;
      }
      var logo := Prop(win.portfolioData, "logo");
      ok := true;
      if Truthy(logo) {
        var updated := SetKey(logo, "image", Str(newImage));
        if updated.Failure? {
          return false;
        }
        ok := win.AssignKey("logo", updated.value);
      }
    }
  }

  /** Saving and then cancelling leaves the drafts as they were. */
  method SaveThenCancel(l: Logo) returns (ok: bool)
    modifies l, l.win
    ensures ok == SetKey(old(l.win.portfolioData), "logo", LogoObject(old(l.logoType), old(l.logoText), old(l.logoImage))).Success?
    ensures ok ==> l.logoType == old(l.logoType) && l.logoText == old(l.logoText) && l.logoImage == old(l.logoImage) && !l.isEditing
  {
    ok := l.Save();
    if ok {
      var _ := l.Cancel();
    }
  }
}
