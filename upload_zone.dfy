/** The upload zone of the front end (`UploadZoneComponent`): a file tab and a
    text tab, the file chosen by drag and drop or by the file dialog, the gate
    on the analyse button, and what pressing it emits. */
module UploadZone {
  import opened Wrappers
  import opened Strings

  datatype Tab = FileTab | TextTab

  /** A browser `File`, by the two properties the component reads. */
  datatype UploadFile = UploadFile(name: string, size: nat)

  /** What `onAnalyze` emits: a file, a text, or nothing. There is no way to
      emit both. */
  datatype Emission = NoEmission | EmitFile(file: UploadFile) | EmitText(text: string)

  /** The minimum trimmed length the analyse button demands, exclusive. */
  const MinTextLength: nat := 10

  /** `canAnalyze`: on the file tab, a file is chosen; on the text tab, the
      trimmed text is longer than ten UTF-16 code units, the unit of
      JavaScript's `length`. */
  function CanAnalyzeIn(tab: Tab, file: Option<UploadFile>, text: string): (ok: bool)
    ensures tab.FileTab? ==> (ok <==> file.Some?)
    ensures tab.TextTab? && ok ==> JsTrim(text) != [] && 2 * |JsTrim(text)| > MinTextLength
    ensures tab.TextTab? && |JsTrim(text)| > MinTextLength ==> ok
  {
    match tab
    case FileTab => file.Some?
    case TextTab => Utf16Length(JsTrim(text)) > MinTextLength
  }

  /** Measured in characters, the text gate lies between six and eleven:
      more than ten characters always enable the button, and fewer than six
      never do. */
  lemma TextGateBounds(file: Option<UploadFile>, text: string)
    ensures |JsTrim(text)| > MinTextLength ==> CanAnalyzeIn(TextTab, file, text)
    ensures CanAnalyzeIn(TextTab, file, text) ==> 2 * |JsTrim(text)| > MinTextLength
    ensures (forall i :: 0 <= i < |JsTrim(text)| ==> JsTrim(text)[i] as int <= 0xFFFF) ==>
              (CanAnalyzeIn(TextTab, file, text) <==> |JsTrim(text)| > MinTextLength)
  {
  }

  /** Six emoji, each a surrogate pair, are twelve code units: they enable
      the button although they are six characters. */
  lemma SixEmojiEnable()
    ensures var t := "\U{1F600}\U{1F600}\U{1F600}\U{1F600}\U{1F600}\U{1F600}";
            |t| == 6 && CanAnalyzeIn(TextTab, None, t)
  {
    var t := "\U{1F600}\U{1F600}\U{1F600}\U{1F600}\U{1F600}\U{1F600}";
    assert JsTrim(t) == t;
    assert Utf16Length(t[..1]) == 2;
    assert t[..2][..1] == t[..1];
    assert Utf16Length(t[..2]) == 4;
    assert t[..3][..2] == t[..2];
    assert Utf16Length(t[..3]) == 6;
    assert t[..4][..3] == t[..3];
    assert Utf16Length(t[..4]) == 8;
    assert t[..5][..4] == t[..4];
    assert Utf16Length(t[..5]) == 10;
    assert t[..6][..5] == t[..5];
    assert t[..6] == t;
    assert Utf16Length(t) == 12;
  }

  /** `onAnalyze`: the chosen file on the file tab, the trimmed text on the
      text tab when it is not blank, and nothing otherwise. */
  function EmissionIn(tab: Tab, file: Option<UploadFile>, text: string): (e: Emission)
    ensures e.EmitFile? <==> tab == FileTab && file.Some?
    ensures e.EmitFile? ==> e.file == file.value
    ensures e.EmitText? <==> tab == TextTab && !IsJsBlank(text)
    ensures e.EmitText? ==> e.text == JsTrim(text) && e.text != []
  {
    if tab == FileTab && file.Some? then EmitFile(file.value)
    else if tab == TextTab && JsTrim(text) != [] then EmitText(JsTrim(text))
    else NoEmission
  }

  /** Whenever the button is enabled, pressing it emits exactly what the tab
      shows. */
  lemma EnabledButtonEmits(tab: Tab, file: Option<UploadFile>, text: string)
    requires CanAnalyzeIn(tab, file, text)
    ensures tab == FileTab ==> EmissionIn(tab, file, text) == EmitFile(file.value)
    ensures tab == TextTab ==> EmissionIn(tab, file, text) == EmitText(JsTrim(text))
  {
  }

  /** `onAnalyze` does not repeat the length gate: a short non-blank text is
      emitted when the handler runs, though the button stays disabled. */
  lemma ShortTextPassesHandler()
    ensures !CanAnalyzeIn(TextTab, None, " short ")
    ensures EmissionIn(TextTab, None, " short ") == EmitText("short")
  {
    var s := " short ";
    assert JsSpaceRunEnd(s, 0) == 1 by {
      assert JsSpaceRunEnd(s, 1) == 1;
    }
    assert JsSpaceRunStart(s, 7) == 6 by {
      assert JsSpaceRunStart(s, 6) == 6;
    }
    assert JsTrim(s) == s[1..6];
    assert s[1..6] == "short";
  }

  // ---------------------------------------------------------------------------
  // The file icon and the size label.

  const DocumentIcon: string := "\U{1F4C4}"
  const PdfIcon: string := "\U{1F4D5}"
  const ImageIcon: string := "\U{1F5BC}\U{FE0F}"

  /** The endings the image-icon pattern accepts at the end of the name. */
  const IconImageEndings: seq<string> := [".jpg", ".jpeg", ".png", ".tiff", ".bmp"]

  predicate HasImageEnding(name: string) {
    exists i :: 0 <= i < |IconImageEndings| && EndsWith(name, IconImageEndings[i])
  }

  /** `getFileIcon`: by the lowercased name; no file is a document. */
  function FileIcon(file: Option<UploadFile>): (icon: string)
    ensures file.None? ==> icon == DocumentIcon
    ensures file.Some? && EndsWith(ToLower(file.value.name), ".pdf") ==> icon == PdfIcon
    ensures file.Some? && !EndsWith(ToLower(file.value.name), ".pdf") ==>
              (icon == ImageIcon <==> HasImageEnding(ToLower(file.value.name)))
    ensures icon == DocumentIcon || icon == PdfIcon || icon == ImageIcon
  {
    if file.None? then DocumentIcon
    else
      var name := ToLower(file.value.name);
      if EndsWith(name, ".pdf") then PdfIcon
      else if HasImageEnding(name) then ImageIcon
      else DocumentIcon
  }

  /** The icon depends on the name only through its lowercase form. */
  lemma FileIconIgnoresCase(name: string, size: nat, other: nat)
    ensures FileIcon(Some(UploadFile(name, size))) == FileIcon(Some(UploadFile(ToLower(name), other)))
  {
    ToLowerIdempotent(name);
  }

  /** The ending is matched without regard to case. */
  lemma UpperCasePdfIcon(size: nat)
    ensures FileIcon(Some(UploadFile("LAB.PDF", size))) == PdfIcon
  {
    assert ToLower("LAB.PDF") == "lab.pdf";
  }

  /** A `.tif` scan gets the document icon. */
  lemma TifGetsDocumentIcon(size: nat)
    ensures FileIcon(Some(UploadFile("scan.tif", size))) == DocumentIcon
  {
    var name := ToLower("scan.tif");
    assert name == "scan.tif";
    assert forall i :: 0 <= i < |IconImageEndings| ==> !EndsWith(name, IconImageEndings[i]);
  }

  const KiloByte: nat := 1024
  const MegaByte: nat := 1048576

  /** `(n / unit).toFixed(1)` as a count of tenths: the nearest tenth, a tie
      going up. The quotient of a whole number of bytes by a power of two is
      exact, so no rounding happens before this. */
  function RoundedTenths(n: nat, unit: nat): (t: nat)
    requires unit > 0 && unit % 2 == 0
    ensures t * unit <= 10 * n + unit / 2 < (t + 1) * unit
  {
    (10 * n + unit / 2) / unit
  }

  /** A count of tenths written with one decimal place. */
  function OneDecimal(t: nat): (s: string)
    ensures |s| >= 3 && s[|s| - 2] == '.'
  {
    NatToDecimal(t / 10) + "." + [DigitChar(t % 10)]
  }

  /** Reading the one-decimal text back gives the count of tenths. */
  lemma OneDecimalReadsBack(t: nat)
    ensures var s := OneDecimal(t);
            && (forall i :: 0 <= i < |s| - 2 ==> '0' <= s[i] <= '9')
            && '0' <= s[|s| - 1] <= '9'
            && DecimalValue(s[..|s| - 2]) * 10 + (s[|s| - 1] as int - '0' as int) == t
  {
    var s := OneDecimal(t);
    assert s[..|s| - 2] == NatToDecimal(t / 10);
    NatToDecimalRoundTrip(t / 10);
    assert s[|s| - 1] == DigitChar(t % 10);
  }

  /** `formatFileSize`: whole bytes below one kilobyte, else kilobytes below
      one megabyte, else megabytes, the last two to one decimal place. */
  function FormatFileSize(bytes: nat): (r: string)
    ensures bytes < KiloByte ==> r == NatToDecimal(bytes) + " B"
    ensures KiloByte <= bytes < MegaByte ==> r == OneDecimal(RoundedTenths(bytes, KiloByte)) + " KB"
    ensures MegaByte <= bytes ==> r == OneDecimal(RoundedTenths(bytes, MegaByte)) + " MB"
  {
    if bytes < KiloByte then NatToDecimal(bytes) + " B"
    else if bytes < MegaByte then OneDecimal(RoundedTenths(bytes, KiloByte)) + " KB"
    else OneDecimal(RoundedTenths(bytes, MegaByte)) + " MB"
  }

  /** A size below one kilobyte is shown exactly: the digits before " B"
      read back as the size. */
  lemma SmallSizeReadsBack(bytes: nat)
    requires bytes < KiloByte
    ensures var r := FormatFileSize(bytes);
            && EndsWith(r, " B")
            && (forall i :: 0 <= i < |r| - 2 ==> '0' <= r[i] <= '9')
            && DecimalValue(r[..|r| - 2]) == bytes
  {
    var r := FormatFileSize(bytes);
    assert r[..|r| - 2] == NatToDecimal(bytes);
    assert r[|r| - 2..] == " B";
    NatToDecimalRoundTrip(bytes);
  }

  /** One byte short of a megabyte is shown as "1024.0 KB": the unit is
      chosen before rounding. */
  lemma LargestKilobyteSize()
    ensures FormatFileSize(MegaByte - 1) == "1024.0 KB"
  {
    assert RoundedTenths(MegaByte - 1, KiloByte) == 10240;
    var d1 := NatToDecimal(1);
    var d10 := NatToDecimal(10);
    var d102 := NatToDecimal(102);
    var d1024 := NatToDecimal(1024);
    assert d1 == "1";
    assert d10 == d1 + "0";
    assert d102 == d10 + "2";
    assert d1024 == d102 + "4";
    assert OneDecimal(10240) == d1024 + ".0";
  }

  // ---------------------------------------------------------------------------
  // The component.

  class UploadZoneComponent {
    var activeTab: Tab
    var selectedFile: Option<UploadFile>
    var reportText: string
    var isDragging: bool

    /** The file tab, nothing chosen, no text, no drag in progress. */
    constructor ()
      ensures activeTab == FileTab && selectedFile.None? && reportText == [] && !isDragging
    {
      activeTab := FileTab;
      selectedFile := None;
      reportText := [];
      isDragging := false;
    }

    /** A click on a tab. */
    method SelectTab(tab: Tab)
      modifies this
      ensures activeTab == tab
      ensures selectedFile == old(selectedFile) && reportText == old(reportText) && isDragging == old(isDragging)
    {
      activeTab := tab;
    }

    /** The text area's two-way binding. */
    method EditText(text: string)
      modifies this
      ensures reportText == text
      ensures activeTab == old(activeTab) && selectedFile == old(selectedFile) && isDragging == old(isDragging)
    {
      reportText := text;
    }

    method OnDragOver()
      modifies this
      ensures isDragging
      ensures activeTab == old(activeTab) && selectedFile == old(selectedFile) && reportText == old(reportText)
    {
      isDragging := true;
    }

    method OnDragLeave()
      modifies this
      ensures !isDragging
      ensures activeTab == old(activeTab) && selectedFile == old(selectedFile) && reportText == old(reportText)
    {
      isDragging := false;
    }

    /** `onDrop`: the drag ends; the first dropped file, if any, replaces
      the selection, and an empty or missing list keeps it. */
    method OnDrop(files: Option<seq<UploadFile>>)
      modifies this
      ensures !isDragging
      ensures files.Some? && |files.value| > 0 ==> selectedFile == Some(files.value[0])
      ensures files.None? || |files.value| == 0 ==> selectedFile == old(selectedFile)
      ensures activeTab == old(activeTab) && reportText == old(reportText)
    {
      isDragging := false;
      if files.Some? && |files.value| > 0 {
        selectedFile := Some(files.value[0]);
      }
    }

    /** `onFileSelected`: like a drop, but the drag flag is left alone. */
    method OnFileSelected(files: Option<seq<UploadFile>>)
      modifies this
      ensures files.Some? && |files.value| > 0 ==> selectedFile == Some(files.value[0])
      ensures files.None? || |files.value| == 0 ==> selectedFile == old(selectedFile)
      ensures activeTab == old(activeTab) && reportText == old(reportText) && isDragging == old(isDragging)
    {
      if files.Some? && |files.value| > 0 {
        selectedFile := Some(files.value[0]);
      }
    }

    /** `removeFile`. */
    method RemoveFile()
      modifies this
      ensures selectedFile.None?
      ensures activeTab == old(activeTab) && reportText == old(reportText) && isDragging == old(isDragging)
    {
      selectedFile := None;
    }

    function CanAnalyze(): (ok: bool)
      reads this
      ensures ok ==> selectedFile.Some? || activeTab.TextTab?
      ensures activeTab.TextTab? && ok ==> JsTrim(reportText) != []
    {
      CanAnalyzeIn(activeTab, selectedFile, reportText)
    }

    /** `onAnalyze`: emits, and changes nothing. */
    method OnAnalyze() returns (e: Emission)
      ensures e == EmissionIn(activeTab, selectedFile, reportText)
    {
      if activeTab == FileTab && selectedFile.Some? {
        e := EmitFile(selectedFile.value);
      } else if activeTab == TextTab && JsTrim(reportText) != [] {
        e := EmitText(JsTrim(reportText));
      } else {
        e := NoEmission;
      }
    }

    function GetFileIcon(): string
      reads this
    {
      FileIcon(selectedFile)
    }
  }
}
