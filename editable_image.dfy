/** The image editor: it shows `imageSrc`, accepts a picked or dropped file, and writes the
    file's data URL into the document at its path. A file is modelled by its data URL. */
module EditableImage {
  import opened Wrappers
  import opened Json
  import opened Document
  import opened PathWriter
  import opened EditMode

  class Image {
    const mode: Provider
    const path: string
    var imageSrc: string
    var isDragging: bool

    constructor (mode: Provider, src: string, path: string)
      ensures this.mode == mode && this.path == path && imageSrc == src && !isDragging
    {
      this.mode := mode;
      this.path := path;
      imageSrc := src;
      isDragging := false;
    }

    /** A new `src` prop replaces the displayed source. */
    method OnSrcChange(src: string)
      modifies this
      ensures imageSrc == src && isDragging == old(isDragging)
    {
      imageSrc := src;
    }

    /** The reader's `onload`: the data URL is displayed and written at the path, and after a
        successful write the path reads back the same string that is displayed. */
    method OnLoad(dataUrl: string) returns (ok: bool)
      requires WellFormedPath(path)
      modifies this, mode.win
      ensures imageSrc == dataUrl && isDragging == old(isDragging)
      ensures mode.win.storage == old(mode.win.storage)
      ensures var root := OrEmpty(old(mode.win.portfolioData));
              var r := SetAtPath(root, path, Str(dataUrl));
              ok == r.Success? && mode.win.portfolioData == Some(if ok then r.value else root)
      ensures ok ==> GetAtPath(mode.win.portfolioData.value, path) == Some(Str(imageSrc))
    {
      imageSrc := dataUrl;
      ok := WriteAtPath(mode.win, path, Str(dataUrl));
      if ok {
        GetAfterSet(OrEmpty(old(mode.win.portfolioData)), path, Str(dataUrl));
      }
    }

    /** The file input's change: the first selected file, if any, is loaded. */
    method HandleFileChange(files: seq<string>) returns (processed: bool, ok: bool)
      requires WellFormedPath(path)
      modifies this, mode.win
      ensures processed == (|files| > 0) && isDragging == old(isDragging)
      ensures mode.win.storage == old(mode.win.storage)
      ensures processed ==> imageSrc == files[0] && mode.win.portfolioData.Some? && (ok ==> GetAtPath(mode.win.portfolioData.value, path) == Some(Str(files[0])))
      ensures !processed ==> !ok && imageSrc == old(imageSrc) && mode.win.portfolioData == old(mode.win.portfolioData)
    {
      processed, ok := false, false;
      if |files| > 0 {
        processed := true;
        ok := OnLoad(files[0]);
      }
    }

    method DragEnter()
      modifies this
      ensures isDragging == (mode.isEditMode || old(isDragging)) && imageSrc == old(imageSrc)
    {
      if mode.isEditMode {
        isDragging := true;
      }
    }

    method DragLeave()
      modifies this
      ensures isDragging == (!mode.isEditMode && old(isDragging)) && imageSrc == old(imageSrc)
    {
      if mode.isEditMode {
        isDragging := false;
      }
    }

    /** A drop, in edit mode only, clears the dragging flag and loads the first dropped file. */
    method Drop(files: seq<string>) returns (processed: bool, ok: bool)
      requires WellFormedPath(path)
      modifies this, mode.win
      ensures processed == (mode.isEditMode && |files| > 0)
      ensures isDragging == (!mode.isEditMode && old(isDragging))
      ensures mode.win.storage == old(mode.win.storage)
      ensures processed ==> imageSrc == files[0] && mode.win.portfolioData.Some? && (ok ==> GetAtPath(mode.win.portfolioData.value, path) == Some(Str(files[0])))
      ensures !processed ==> !ok && imageSrc == old(imageSrc) && mode.win.portfolioData == old(mode.win.portfolioData)
    {
      processed, ok := false, false;
      if mode.isEditMode {
        isDragging := false;
        if |files| > 0 {
          processed := true;
          ok := OnLoad(files[0]);
        }
      }
    }
  }
}
