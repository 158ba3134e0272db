/** The export sidebar of the history page: the export settings it keeps,
    the one-setting update its controls make, the file name an export is
    given, and the busy flag held for the length of an export. */
module ExportSidebar {
  import opened Text

  datatype ExportConfig = ExportConfig(
    format: string,
    includeImages: bool,
    includeMetadata: bool,
    includeConfidenceScores: bool,
    dateRange: string,
    customStartDate: string,
    customEndDate: string)

  /** CSV, no images, metadata and confidence scores on, every date, no custom dates. */
  const InitialConfig: ExportConfig := ExportConfig("csv", false, true, true, "all", "", "")

  /** The formats the radio buttons offer. */
  const Formats: seq<string> := ["csv", "json", "pdf", "dicom"]

  /** One control's change: which setting, with the value it reports. */
  datatype ConfigChange =
    | SetFormat(format: string)
    | SetIncludeImages(includeImages: bool)
    | SetIncludeMetadata(includeMetadata: bool)
    | SetIncludeConfidenceScores(includeConfidenceScores: bool)
    | SetDateRange(dateRange: string)
    | SetCustomStartDate(customStartDate: string)
    | SetCustomEndDate(customEndDate: string)

  /** `{ ...prev, [key]: value }`. */
  function Apply(c: ExportConfig, ch: ConfigChange): ExportConfig
  {
    match ch
    case SetFormat(v) => c.(format := v)
    case SetIncludeImages(v) => c.(includeImages := v)
    case SetIncludeMetadata(v) => c.(includeMetadata := v)
    case SetIncludeConfidenceScores(v) => c.(includeConfidenceScores := v)
    case SetDateRange(v) => c.(dateRange := v)
    case SetCustomStartDate(v) => c.(customStartDate := v)
    case SetCustomEndDate(v) => c.(customEndDate := v)
  }

  /** A change of one setting gives that setting the reported value and
      leaves every other setting as it was, and applying it twice is
      applying it once. */
  lemma ApplyChangesOneKey(c: ExportConfig, ch: ConfigChange)
    ensures ch.SetFormat? ==> Apply(c, ch) == c.(format := ch.format)
    ensures ch.SetIncludeImages? ==> Apply(c, ch) == c.(includeImages := ch.includeImages)
    ensures ch.SetIncludeMetadata? ==> Apply(c, ch) == c.(includeMetadata := ch.includeMetadata)
    ensures ch.SetIncludeConfidenceScores? ==> Apply(c, ch) == c.(includeConfidenceScores := ch.includeConfidenceScores)
    ensures ch.SetDateRange? ==> Apply(c, ch) == c.(dateRange := ch.dateRange)
    ensures ch.SetCustomStartDate? ==> Apply(c, ch) == c.(customStartDate := ch.customStartDate)
    ensures ch.SetCustomEndDate? ==> Apply(c, ch) == c.(customEndDate := ch.customEndDate)
    ensures !ch.SetFormat? ==> Apply(c, ch).format == c.format
    ensures !ch.SetIncludeImages? ==> Apply(c, ch).includeImages == c.includeImages
    ensures !ch.SetIncludeMetadata? ==> Apply(c, ch).includeMetadata == c.includeMetadata
    ensures !ch.SetIncludeConfidenceScores? ==> Apply(c, ch).includeConfidenceScores == c.includeConfidenceScores
    ensures !ch.SetDateRange? ==> Apply(c, ch).dateRange == c.dateRange
    ensures !ch.SetCustomStartDate? ==> Apply(c, ch).customStartDate == c.customStartDate
    ensures !ch.SetCustomEndDate? ==> Apply(c, ch).customEndDate == c.customEndDate
    ensures Apply(Apply(c, ch), ch) == Apply(c, ch)
  {
  }

  /** `neuroscan_export_${iso.split('T')[0]}.${format}`, where `iso` is the
      `toISOString()` of the moment the export finishes. */
  function ExportFilename(iso: string, format: string): string
  {
    "neuroscan_export_" + BeforeFirst(iso, 'T') + "." + format
  }

  /** For a timestamp `date` + "T" + `time`, the name carries exactly the
      date part and then the format as its extension. */
  lemma ExportFilenameParts(date: string, time: string, format: string)
    requires 'T' !in date
    ensures ExportFilename(date + "T" + time, format) == "neuroscan_export_" + date + "." + format
  {
    BeforeFirstOf(date, 'T', time);
  }

  /** The sidebar. `isOpen` is the page's flag, which `onClose` clears. */
  class Sidebar {
    var isOpen: bool
    var config: ExportConfig
    var isExporting: bool
    /** The settings the running export was started with: the export
        closure sees the settings of the render it was started from. */
    var exportingConfig: ExportConfig

    constructor ()
      ensures !isOpen && config == InitialConfig && !isExporting
    {
      isOpen := false;
      config := InitialConfig;
      isExporting := false;
      exportingConfig := InitialConfig;
    }

    /** Nothing renders unless the sidebar is open. */
    function Rendered(): bool
      reads this
    {
      isOpen
    }

    /** The custom start and end date inputs. */
    function CustomDatesShown(): bool
      reads this
    {
      isOpen && config.dateRange == "custom"
    }

    /** The page's Export button opens the sidebar. */
    method Open()
      modifies this`isOpen
      ensures isOpen
    {
      isOpen := true;
    }

    method HandleConfigChange(ch: ConfigChange)
      modifies this`config
      ensures config == Apply(old(config), ch)
    {
      config := Apply(config, ch);
    }

    /** The first half of `handleExport`: the busy flag goes up and the
        two-second wait begins. */
    method BeginExport()
      modifies this`isExporting, this`exportingConfig
      ensures isExporting && exportingConfig == config
    {
      isExporting := true;
      exportingConfig := config;
    }

    /** The wait ends at the moment whose ISO timestamp is `iso`: the file
        name is formed, the busy flag drops, and `onClose` closes the sidebar. */
    method CompleteExport(iso: string) returns (filename: string)
      requires isExporting
      modifies this`isExporting, this`isOpen
      ensures !isExporting && !isOpen
      ensures filename == ExportFilename(iso, exportingConfig.format)
    {
      filename := "neuroscan_export_" + BeforeFirst(iso, 'T') + "." + exportingConfig.format;
      isExporting := false;
      isOpen := false;
    }
  }
}
