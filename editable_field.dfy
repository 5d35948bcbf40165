/** The inline text editor: it shows `fieldValue` and writes every change into the document at
    its path. */
module EditableField {
  import opened Wrappers
  import opened Json
  import opened Document
  import opened PathWriter

  class Field {
    const win: Window
    const path: string
    var fieldValue: string

    constructor (win: Window, value: string, path: string)
      ensures this.win == win && this.path == path && fieldValue == value
    {
      this.win := win;
      this.path := path;
      fieldValue := value;
    }

    /** A new `value` prop replaces the local text. */
    method OnValueChange(value: string)
      modifies this
      ensures fieldValue == value
    {
      fieldValue := value;
    }

    /** `handleChange`: the local text becomes `newValue`, which is written at the path; after
        a successful write the path reads back exactly `newValue`. */
    method HandleChange(newValue: string) returns (ok: bool)
      requires WellFormedPath(path)
      modifies this, win
      ensures fieldValue == newValue && win.storage == old(win.storage)
      ensures var root := OrEmpty(old(win.portfolioData));
              var r := SetAtPath(root, path, Str(newValue));
              ok == r.Success? && win.portfolioData == Some(if ok then r.value else root)
      ensures ok ==> GetAtPath(win.portfolioData.value, path) == Some(Str(newValue))
    {
      fieldValue := newValue;
      ok := WriteAtPath(win, path, Str(newValue));
      if ok {
        GetAfterSet(OrEmpty(old(win.portfolioData)), path, Str(newValue));
      }
    }
  }
}
