/** The background picker (src/components/BackgroundPicker.tsx): upload validation, the custom
    list it appends to, and which tile is marked selected. */
module BackgroundPicker {
  import opened Types
  import Data

  /** The file an upload offers: its MIME type and its size in bytes. */
  datatype File = File(mimeType: string, size: nat)

  const MaxUploadBytes: nat := 10 * 1024 * 1024

  /** How `handleFileUpload` disposes of the chosen file. */
  datatype UploadCheck = NoFile | NotAnImage | TooLarge | Accepted

  predicate StartsWith(s: string, prefix: string)
  {
    |prefix| <= |s| && s[..|prefix|] == prefix
  }

  /** No file: return; not `image/...`: reject; over 10 MiB: reject; otherwise accept. The type
      is checked before the size. */
  function CheckUpload(file: Option<File>): UploadCheck
  {
    if file.None? then NoFile
    else if !StartsWith(file.value.mimeType, "image/") then NotAnImage
    else if file.value.size > MaxUploadBytes then TooLarge
    else Accepted
  }

  /** A file is accepted exactly when it is an image of at most 10 MiB; an oversized non-image is
      reported as not an image. */
  lemma UploadAcceptedIff(file: Option<File>)
    ensures CheckUpload(file) == Accepted <==>
      file.Some? && StartsWith(file.value.mimeType, "image/") && file.value.size <= MaxUploadBytes
    ensures CheckUpload(file) == TooLarge <==>
      file.Some? && StartsWith(file.value.mimeType, "image/") && file.value.size > MaxUploadBytes
    ensures CheckUpload(file) == NotAnImage <==> file.Some? && !StartsWith(file.value.mimeType, "image/")
  {
  }

  /** The size limit is inclusive: an image of exactly 10 MiB is accepted, one byte more is not. */
  lemma SizeLimitInclusive(mimeType: string)
    requires StartsWith(mimeType, "image/")
    ensures CheckUpload(Some(File(mimeType, 10485760))) == Accepted
    ensures CheckUpload(Some(File(mimeType, 10485761))) == TooLarge
  {
  }

  /** The alert a rejected upload shows; an accepted upload and a missing file show none. */
  function AlertFor(check: UploadCheck): (alert: Option<string>)
    ensures alert.Some? <==> check == NotAnImage || check == TooLarge
  {
    match check
    case NotAnImage => Some("يرجى اختيار ملف صورة")
    case TooLarge => Some("حجم الصورة كبير جداً (الحد الأقصى 10 ميجابايت)")
    case _ => None
  }

  /** `[...BACKGROUNDS, ...customBackgrounds]`. */
  function AllBackgrounds(customs: seq<Background>): (all: seq<Background>)
  {
    Data.Backgrounds + customs
  }

  /** The tiles are the built-ins, in order, then the customs, in order. */
  lemma AllBackgroundsOrder(customs: seq<Background>)
    ensures |AllBackgrounds(customs)| == |Data.Backgrounds| + |customs|
    ensures forall i :: 0 <= i < |Data.Backgrounds| ==> AllBackgrounds(customs)[i] == Data.Backgrounds[i]
    ensures forall i :: 0 <= i < |customs| ==> AllBackgrounds(customs)[|Data.Backgrounds| + i] == customs[i]
  {
  }

  /** `currentBackground.id === bg.id`: the class of the tile and its badge. */
  predicate TileSelected(current: Background, bg: Background)
  {
    current.id == bg.id
  }

  /** With a built-in as the current background, exactly its own built-in tile is selected. */
  lemma OneBuiltInTileSelected(k: nat, customs: seq<Background>)
    requires k < |Data.Backgrounds|
    ensures forall i :: 0 <= i < |Data.Backgrounds| ==>
      (TileSelected(Data.Backgrounds[k], AllBackgrounds(customs)[i]) <==> i == k)
  {
    Data.BuiltInIdsDistinct();
  }

  /** The picker's own state: the uploaded backgrounds and whether the panel is open. */
  class Picker {
    var customBackgrounds: seq<Background>
    var isExpanded: bool

    constructor()
      ensures customBackgrounds == [] && !isExpanded
    {
      customBackgrounds := [];
      isExpanded := false;
    }

    /** `handleFileUpload`. `created` is the record the custom-background factory builds for the
        file's object URL. An accepted file is appended to the custom list and reported as the
        new background; anything else leaves the list alone and reports nothing. */
    method HandleFileUpload(file: Option<File>, created: Background) returns (check: UploadCheck, alert: Option<string>, selected: Option<Background>)
      modifies this
      ensures check == CheckUpload(file) && alert == AlertFor(check)
      ensures check == Accepted ==> customBackgrounds == old(customBackgrounds) + [created] && selected == Some(created)
      ensures check != Accepted ==> customBackgrounds == old(customBackgrounds) && selected.None?
      ensures isExpanded == old(isExpanded)
    {
      check := CheckUpload(file);
      alert := AlertFor(check);
      selected := None;
      if check == Accepted {
        customBackgrounds := customBackgrounds + [created];
        selected := Some(created);
      }
    }

    /** The toggle button opens or closes the panel. */
    method Toggle()
      modifies this
      ensures isExpanded == !old(isExpanded) && customBackgrounds == old(customBackgrounds)
    {
      isExpanded := !isExpanded;
    }

    /** The close button. */
    method Close()
      modifies this
      ensures !isExpanded && customBackgrounds == old(customBackgrounds)
    {
      isExpanded := false;
    }
  }
}
