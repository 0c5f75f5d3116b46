/** The generator page: it keeps the typed input, the cloud link of an
    upload, the value actually encoded and the busy flag of an upload, and
    derives from them what the cloud panel, the character counter and the
    download button offer. Each handler, together with the derived-value
    effect it triggers, is one atomic step. */
module Generator {
  import opened Wrappers
  import opened JsString
  import QrUtils
  import Preview

  /** Above this many code units the cloud upload is offered and recommended. */
  const CloudThreshold := 2000

  /** Above this many code units the counter turns yellow. */
  const WarningThreshold := 1500

  const NoCanvasMessage := "Please generate a QR code first"

  /** The string the QR code encodes: the cloud link once there is one,
      the typed input otherwise. */
  function Resolved(inputValue: string, cloudLink: string): string {
    if cloudLink != "" then cloudLink else inputValue
  }

  /** The character counter's look: plain, yellow, or red with the
      "Cloud Recommended" prefix. */
  datatype CounterStyle = Plain | Warning | CloudRecommended

  function Counter(qrValue: string): CounterStyle {
    if Utf16Length(qrValue) > CloudThreshold then CloudRecommended
    else if Utf16Length(qrValue) > WarningThreshold then Warning
    else Plain
  }

  /** The comparisons are strict: 1500 code units are plain, 2000 yellow,
      only 2001 and more red. */
  lemma CounterBoundaries(q: string)
    ensures Utf16Length(q) <= WarningThreshold ==> Counter(q) == Plain
    ensures WarningThreshold < Utf16Length(q) <= CloudThreshold ==> Counter(q) == Warning
    ensures CloudThreshold < Utf16Length(q) ==> Counter(q) == CloudRecommended
  {
  }

  /** What pressing Download does: an alert when there is no canvas to
      export, or an export with the given layout. */
  datatype DownloadAction = NoCanvasAlert(message: string) | Export(layout: QrUtils.ExportLayout)

  /** Whatever the preview refuses for its length, the counter already
      flags in red. */
  lemma OversizeIsRecommended(qrValue: string, size: nat, fg: string, bg: string, level: Preview.Level, e: bool)
    requires Utf16Length(qrValue) > Preview.MaxRenderLength
    ensures Counter(qrValue) == CloudRecommended
    ensures Preview.Decide(qrValue, size, fg, bg, level, e).Fallback?
  {
  }

  /** The counter's thresholds are ordered below the preview's limit: a
      value the counter shows plain or yellow is never refused for its length. */
  lemma CounterBelowLimitRenders(qrValue: string, size: nat, fg: string, bg: string, level: Preview.Level)
    requires qrValue != "" && Counter(qrValue) != CloudRecommended
    ensures Preview.Decide(qrValue, size, fg, bg, level, false) == Preview.Canvas(qrValue, size, fg, bg, level)
  {
  }

  /** After an upload, the preview draws the link, not the long input,
      as long as the link itself is within the limit. */
  lemma LinkReplacesInput(inputValue: string, link: string, size: nat, fg: string, bg: string, level: Preview.Level)
    requires link != "" && Utf16Length(link) <= Preview.MaxRenderLength
    ensures Preview.Decide(Resolved(inputValue, link), size, fg, bg, level, false) == Preview.Canvas(link, size, fg, bg, level)
  {
  }

  class QRGenerator {
    var inputValue: string
    var qrValue: string
    var size: nat
    var fgColor: string
    var bgColor: string
    var errorLevel: Preview.Level
    var isUploading: bool
    var cloudLink: string

    /** The encoded value is always the one derived from the input and the link. */
    ghost predicate Valid()
      reads this
    {
      qrValue == Resolved(inputValue, cloudLink)
    }

    /** The page's initial state. */
    constructor ()
      ensures Valid()
      ensures inputValue == "" && qrValue == "" && cloudLink == "" && !isUploading
      ensures size == 256 && fgColor == "#000000" && bgColor == "#ffffff" && errorLevel == Preview.M
    {
      inputValue, qrValue := "", "";
      size, fgColor, bgColor, errorLevel := 256, "#000000", "#ffffff", Preview.M;
      isUploading, cloudLink := false, "";
    }

    /** The effect on `[inputValue, cloudLink]`: it re-derives the encoded
        value when either has changed since `prevInput` and `prevLink`. */
    method RunValueEffect(prevInput: string, prevLink: string)
      modifies this`qrValue
      ensures qrValue == if inputValue != prevInput || cloudLink != prevLink
                         then Resolved(inputValue, cloudLink) else old(qrValue)
    {
      if inputValue != prevInput || cloudLink != prevLink {
        qrValue := Resolved(inputValue, cloudLink);
      }
    }

    /** `handleInputChange`: the new text replaces the input and drops the
        cloud link, so the new text is what gets encoded. */
    method HandleInputChange(val: string)
      requires Valid()
      modifies this
      ensures Valid()
      ensures inputValue == val && cloudLink == "" && qrValue == val
      ensures isUploading == old(isUploading)
      ensures size == old(size) && fgColor == old(fgColor) && bgColor == old(bgColor) && errorLevel == old(errorLevel)
    {
      var prevInput, prevLink := inputValue, cloudLink;
      inputValue := val;
      cloudLink := "";
      RunValueEffect(prevInput, prevLink);
    }

    /** The start of `handleCloudUpload`: nothing happens for an empty
        input; otherwise the page becomes busy and the input is what will
        be uploaded. */
    method StartUpload() returns (started: bool)
      requires Valid()
      modifies this`isUploading
      ensures Valid()
      ensures started <==> inputValue != ""
      ensures isUploading == if started then true else old(isUploading)
    {
      if inputValue == "" {
        return false;
      }
      isUploading := true;
      started := true;
    }

    /** The end of `handleCloudUpload`: a link becomes the cloud link and
        the encoded value; a failure leaves both as they were; either way
        the page is no longer busy. The chain never yields an empty link. */
    method FinishUpload(outcome: Result<string, string>)
      requires Valid()
      requires outcome.Ok? ==> outcome.value != ""
      modifies this`cloudLink, this`qrValue, this`isUploading
      ensures Valid()
      ensures !isUploading
      ensures outcome.Ok? ==> cloudLink == outcome.value && qrValue == outcome.value
      ensures outcome.Err? ==> cloudLink == old(cloudLink) && qrValue == old(qrValue)
    {
      if outcome.Ok? {
        var prevInput, prevLink := inputValue, cloudLink;
        cloudLink := outcome.value;
        qrValue := outcome.value;
        RunValueEffect(prevInput, prevLink);
      }
      isUploading := false;
    }

    /** `handleCloudUpload` as one step, with the network as a parameter:
        a no-op for an empty input; otherwise the input goes through the
        fallback chain, whose result `outcome` is adopted or dropped, and
        the busy flag ends false on success and on failure alike. */
    method HandleCloudUpload(network: QrUtils.Request -> QrUtils.Transport)
      returns (outcome: Option<Result<string, string>>)
      requires Valid()
      modifies this
      ensures Valid()
      ensures old(inputValue) == "" ==> outcome == None && unchanged(this)
      ensures old(inputValue) != "" ==>
                && outcome.Some? && !isUploading
                && (outcome.value.Ok? <==> QrUtils.FirstOk(QrUtils.Outcomes(old(inputValue), network)).Some?)
      ensures old(inputValue) != "" ==>
                var os := QrUtils.Outcomes(old(inputValue), network);
                match QrUtils.FirstOk(os)
                case Some(i) => outcome == Some(Ok(os[i].value))
                case None => outcome == Some(Err(QrUtils.AllUnreachable))
      ensures outcome.Some? && outcome.value.Ok? ==> cloudLink == outcome.value.value && qrValue == outcome.value.value
      ensures outcome.Some? && outcome.value.Err? ==>
                outcome.value.error == QrUtils.AllUnreachable && cloudLink == old(cloudLink) && qrValue == old(qrValue)
      ensures inputValue == old(inputValue)
      ensures size == old(size) && fgColor == old(fgColor) && bgColor == old(bgColor) && errorLevel == old(errorLevel)
    {
      var started := StartUpload();
      if !started {
        return None;
      }
      var result, contacted := QrUtils.UploadToCloud(inputValue, network);
      FinishUpload(result);
      outcome := Some(result);
    }

    /** The Reset button: the cloud link is dropped and the input is encoded again. */
    method ResetCloudLink()
      requires Valid()
      modifies this
      ensures Valid()
      ensures cloudLink == "" && qrValue == inputValue
      ensures inputValue == old(inputValue) && isUploading == old(isUploading)
      ensures size == old(size) && fgColor == old(fgColor) && bgColor == old(bgColor) && errorLevel == old(errorLevel)
    {
      var prevInput, prevLink := inputValue, cloudLink;
      cloudLink := "";
      RunValueEffect(prevInput, prevLink);
    }

    /** The size slider. */
    method SetSize(n: nat)
      modifies this`size
      ensures size == n
    {
      size := n;
    }

    /** The error-correction buttons. */
    method SetErrorLevel(level: Preview.Level)
      modifies this`errorLevel
      ensures errorLevel == level
    {
      errorLevel := level;
    }

    /** The foreground colour picker's `onChange`. */
    method SetFgColor(color: string)
      modifies this`fgColor
      ensures fgColor == color
    {
      fgColor := color;
    }

    /** The background colour picker's `onChange`. */
    method SetBgColor(color: string)
      modifies this`bgColor
      ensures bgColor == color
    {
      bgColor := color;
    }

    /** The cloud panel appears for a long input or once there is a link. */
    predicate CloudPanelShown()
      reads this
    {
      Utf16Length(inputValue) > CloudThreshold || cloudLink != ""
    }

    /** The panel offers the upload button only while there is no link... */
    predicate UploadOffered()
      reads this
    {
      CloudPanelShown() && cloudLink == ""
    }

    /** ...and that button is disabled while an upload is running. */
    predicate UploadEnabled()
      reads this
    {
      UploadOffered() && !isUploading
    }

    /** With a link, the panel shows it with the Reset button instead. */
    predicate ResetOffered()
      reads this
    {
      CloudPanelShown() && cloudLink != ""
    }

    /** Download is disabled while nothing is encoded. */
    predicate DownloadEnabled()
      reads this
    {
      qrValue != ""
    }

    /** `handleDownload`, given whether the page holds a QR canvas: an alert
        when it does not, otherwise an export at the current size. */
    method HandleDownload(canvasFound: bool) returns (action: DownloadAction)
      ensures !canvasFound ==> action == NoCanvasAlert(NoCanvasMessage)
      ensures canvasFound ==> action.Export? && action.layout == QrUtils.ExportGeometry(size, bgColor)
      ensures action.Export? ==> action.layout.drawSide == size && action.layout.fill == QrUtils.ExportFill
    {
      if !canvasFound {
        return NoCanvasAlert(NoCanvasMessage);
      }
      action := Export(QrUtils.ExportGeometry(size, bgColor));
    }
  }

  /** The upload button and the Reset button are never offered together,
      and the panel, when shown, offers exactly one of them. */
  lemma PanelOffersOneAction(g: QRGenerator)
    ensures !(g.UploadOffered() && g.ResetOffered())
    ensures g.CloudPanelShown() <==> g.UploadOffered() || g.ResetOffered()
  {
  }

  /** Without a link, the panel appears exactly when the counter
      recommends the cloud: both look at the same text then. */
  lemma PanelMatchesCounter(g: QRGenerator)
    requires g.Valid() && g.cloudLink == ""
    ensures g.CloudPanelShown() <==> Counter(g.qrValue) == CloudRecommended
  {
  }

  /** Download is enabled exactly when there is something to encode:
      some input, or a cloud link. */
  lemma DownloadNeedsContent(g: QRGenerator)
    requires g.Valid()
    ensures g.DownloadEnabled() <==> g.inputValue != "" || g.cloudLink != ""
  {
  }
}
