/** The two action buttons of the life wheel (LifeWheel.tsx): "download
    image" and "copy to clipboard". Each click handler is asynchronous; it
    is modelled as the three steps it runs through: the press (guard and
    first state write), the settling of the export and of what follows it,
    and the end of the two-second dwell, after which the button is idle
    again. The DOM, object URLs and the clipboard are foreign; the model
    keeps of them only what the handlers cause: the files whose download
    was triggered, the object URLs left unreleased and the blobs written
    to the clipboard. */
module ActionButtons {
  import opened Wrappers
  import opened ExportPipeline

  const DownloadFileName: string := "livshjulet.png"

  /** The steps of the download's `try` block, in order. */
  datatype DomStep =
    | CreateObjectUrl
    | CreateAnchor
    | AppendAnchor
    | ClickAnchor
    | RemoveAnchor
    | RevokeObjectUrl

  function StepOrder(step: DomStep): nat {
    match step
    case CreateObjectUrl => 0
    case CreateAnchor => 1
    case AppendAnchor => 2
    case ClickAnchor => 3
    case RemoveAnchor => 4
    case RevokeObjectUrl => 5
  }

  /** Whether `step` completes when the step `throwsAt` throws (None:
      nothing throws). A throw skips every later step of the block. */
  predicate Completes(throwsAt: Option<DomStep>, step: DomStep) {
    throwsAt.None? || StepOrder(step) < StepOrder(throwsAt.value)
  }

  /** A step completes only if every earlier one did. */
  lemma CompletesInOrder(throwsAt: Option<DomStep>, earlier: DomStep, later: DomStep)
    requires StepOrder(earlier) <= StepOrder(later)
    ensures Completes(throwsAt, later) ==> Completes(throwsAt, earlier)
  {
  }

  class DownloadButton {
    var disabled: bool
    /** Runs of `getExportedPng`. */
    var exportRuns: nat
    /** Files whose download was triggered, in order. */
    var savedFiles: seq<string>
    /** Object URLs created and not revoked. */
    var liveObjectUrls: nat

    constructor ()
      ensures !disabled && exportRuns == 0 && savedFiles == [] && liveObjectUrls == 0
    {
      disabled := false;
      exportRuns := 0;
      savedFiles := [];
      liveObjectUrls := 0;
    }

    /** The guard: a press while disabled is ignored; otherwise the button
        is disabled. */
    method Press() returns (accepted: bool)
      modifies this
      ensures accepted == !old(disabled)
      ensures disabled
      ensures exportRuns == old(exportRuns) && savedFiles == old(savedFiles) && liveObjectUrls == old(liveObjectUrls)
    {
      if disabled {
        return false;
      }
      disabled := true;
      accepted := true;
    }

    /** The export settles; with a blob, the download is triggered through a
        temporary anchor. A throw anywhere in that block is caught, and the
        object URL is released only when every step before the release
        completed. The button stays disabled. */
    method ExportSettled(exporter: Exporter, atob: string -> Option<string>, throwsAt: Option<DomStep>)
      requires disabled
      modifies this
      ensures disabled
      ensures exportRuns == old(exportRuns) + 1
      ensures savedFiles == old(savedFiles) +
        (if ProducesBlob(exporter, atob) && Completes(throwsAt, ClickAnchor) then [DownloadFileName] else [])
      ensures liveObjectUrls == old(liveObjectUrls) +
        (if ProducesBlob(exporter, atob) && Completes(throwsAt, CreateObjectUrl) && !Completes(throwsAt, RevokeObjectUrl)
         then 1 else 0)
    {
      var blob := GetExportedPng(exporter, atob);
      exportRuns := exportRuns + 1;
      if blob.Some? {
        if Completes(throwsAt, CreateObjectUrl) {
          liveObjectUrls := liveObjectUrls + 1;
        }
        if Completes(throwsAt, ClickAnchor) {
          savedFiles := savedFiles + [DownloadFileName];
        }
        if Completes(throwsAt, RevokeObjectUrl) {
          CompletesInOrder(throwsAt, CreateObjectUrl, RevokeObjectUrl);
          liveObjectUrls := liveObjectUrls - 1;
        }
      }
    }

    /** The dwell ends: the button is enabled again, whatever the outcome. */
    method DwellElapsed()
      modifies this
      ensures !disabled
      ensures exportRuns == old(exportRuns) && savedFiles == old(savedFiles) && liveObjectUrls == old(liveObjectUrls)
    {
      disabled := false;
    }

    /** A whole invocation of `handleDownload`: ignored while disabled,
        otherwise one export and back to enabled. */
    method HandleDownload(exporter: Exporter, atob: string -> Option<string>, throwsAt: Option<DomStep>)
      returns (accepted: bool)
      modifies this
      ensures accepted == !old(disabled)
      ensures !accepted ==>
        disabled && exportRuns == old(exportRuns) && savedFiles == old(savedFiles) && liveObjectUrls == old(liveObjectUrls)
      ensures accepted ==> !disabled && exportRuns == old(exportRuns) + 1
      ensures accepted ==> (savedFiles == old(savedFiles) +
        (if ProducesBlob(exporter, atob) && Completes(throwsAt, ClickAnchor) then [DownloadFileName] else []))
      ensures accepted ==> (liveObjectUrls == old(liveObjectUrls) +
        (if ProducesBlob(exporter, atob) && Completes(throwsAt, CreateObjectUrl) && !Completes(throwsAt, RevokeObjectUrl)
         then 1 else 0))
    {
      accepted := Press();
      if accepted {
        ExportSettled(exporter, atob, throwsAt);
        DwellElapsed();
      }
    }
  }

  /** Two presses before the first export settles: the second is rejected,
      exactly one export runs, at most one file is saved, and the button
      ends enabled. */
  method DownloadPressedTwice(exporter: Exporter, atob: string -> Option<string>)
    returns (first: bool, second: bool, exportRuns: nat, savedFiles: seq<string>, disabledAfter: bool)
    ensures first && !second
    ensures exportRuns == 1
    ensures savedFiles == if ProducesBlob(exporter, atob) then [DownloadFileName] else []
    ensures !disabledAfter
  {
    var button := new DownloadButton();
    first := button.Press();
    second := button.Press();
    button.ExportSettled(exporter, atob, None);
    button.DwellElapsed();
    exportRuns, savedFiles, disabledAfter := button.exportRuns, button.savedFiles, button.disabled;
  }

  /** The release of the object URL sits inside the `try`: when clicking
      the anchor throws, the file is not saved and the URL stays live. */
  method DownloadWithThrowingClick(exporter: Exporter, atob: string -> Option<string>)
    returns (savedFiles: seq<string>, liveObjectUrls: nat, disabledAfter: bool)
    requires ProducesBlob(exporter, atob)
    ensures savedFiles == [] && liveObjectUrls == 1
    ensures !disabledAfter
  {
    var button := new DownloadButton();
    var accepted := button.HandleDownload(exporter, atob, Some(ClickAnchor));
    savedFiles, liveObjectUrls, disabledAfter := button.savedFiles, button.liveObjectUrls, button.disabled;
  }

  const CopyIdleLabel: string := "Kopier til utklippstavle"
  const CopySuccessLabel: string := "Kopiert!"
  const CopyFailureLabel: string := "Kopiering feilet"

  /** The copy button's phase (0 idle, 1 busy, 2 success, -1 failure) and
      the text shown with it. */
  predicate CopyConsistent(phase: int, text: string) {
    || ((phase == 0 || phase == 1) && text == CopyIdleLabel)
    || (phase == 2 && text == CopySuccessLabel)
    || (phase == -1 && text == CopyFailureLabel)
  }

  datatype CopyIcon = ClipboardCopy | CircleDashed | CircleCheck | CircleX

  /** The icon drawn for a phase; anything above 1 counts as success,
      anything negative as failure. */
  function CopyIconFor(phase: int): (icon: CopyIcon)
    ensures icon == ClipboardCopy <==> phase == 0
    ensures icon == CircleDashed <==> phase == 1
    ensures icon == CircleCheck <==> phase > 1
    ensures icon == CircleX <==> phase < 0
  {
    if phase == 0 then ClipboardCopy
    else if phase == 1 then CircleDashed
    else if phase > 1 then CircleCheck
    else CircleX
  }

  /** The button is disabled in every phase but idle, that is, whenever
      its icon is not the clipboard. */
  function CopyButtonDisabled(phase: int): (disabled: bool)
    ensures !disabled <==> CopyIconFor(phase) == ClipboardCopy
  {
    phase != 0
  }

  /** In every consistent phase the icon and the text tell the same story,
      and the button is enabled exactly when the idle icon shows. */
  lemma CopyIconMatchesText(phase: int, text: string)
    requires CopyConsistent(phase, text)
    ensures !CopyButtonDisabled(phase) <==> CopyIconFor(phase) == ClipboardCopy
    ensures CopyIconFor(phase) == CircleCheck <==> text == CopySuccessLabel
    ensures CopyIconFor(phase) == CircleX <==> text == CopyFailureLabel
    ensures text == CopyIdleLabel <==> CopyIconFor(phase) in {ClipboardCopy, CircleDashed}
  {
  }

  class CopyButton {
    var phase: int
    var text: string
    /** Blobs written to the clipboard, in order. */
    var clipboard: seq<Blob>

    ghost predicate Valid()
      reads this
    {
      CopyConsistent(phase, text)
    }

    constructor ()
      ensures Valid() && phase == 0 && text == CopyIdleLabel && clipboard == []
    {
      phase := 0;
      text := CopyIdleLabel;
      clipboard := [];
    }

    /** The guard: a press in any phase but idle is ignored; otherwise the
        button becomes busy. */
    method Press() returns (accepted: bool)
      requires Valid()
      modifies this
      ensures Valid()
      ensures accepted == (old(phase) == 0)
      ensures phase == if accepted then 1 else old(phase)
      ensures text == old(text) && clipboard == old(clipboard)
    {
      if phase != 0 {
        return false;
      }
      phase := 1;
      accepted := true;
    }

    /** The export settles and, with a blob, the clipboard write settles:
        success shows "Kopiert!" in phase 2; a missing blob or a refused
        write shows "Kopiering feilet" in phase -1. */
    method ExportSettled(exporter: Exporter, atob: string -> Option<string>, clipboardAccepts: bool)
      requires Valid() && phase == 1
      modifies this
      ensures Valid()
      ensures ProducesBlob(exporter, atob) && clipboardAccepts ==>
        phase == 2 && text == CopySuccessLabel && clipboard == old(clipboard) + [ExportedPng(exporter, atob).value]
      ensures !(ProducesBlob(exporter, atob) && clipboardAccepts) ==>
        phase == -1 && text == CopyFailureLabel && clipboard == old(clipboard)
    {
      var blob := GetExportedPng(exporter, atob);
      if blob.Some? {
        if clipboardAccepts {
          clipboard := clipboard + [blob.value];
          text := CopySuccessLabel;
          phase := 2;
        } else {
          text := CopyFailureLabel;
          phase := -1;
        }
      } else {
        text := CopyFailureLabel;
        phase := -1;
      }
    }

    /** The dwell ends: back to idle with the original text. */
    method DwellElapsed()
      requires Valid() && (phase == 2 || phase == -1)
      modifies this
      ensures Valid()
      ensures phase == 0 && text == CopyIdleLabel && clipboard == old(clipboard)
    {
      text := CopyIdleLabel;
      phase := 0;
    }

    /** A whole invocation of `handleCopyToClipboard`: ignored unless idle,
        otherwise it reports its outcome and always ends idle. */
    method HandleCopyToClipboard(exporter: Exporter, atob: string -> Option<string>, clipboardAccepts: bool)
      returns (accepted: bool, shownPhase: int, shownText: string)
      requires Valid()
      modifies this
      ensures Valid()
      ensures accepted == (old(phase) == 0)
      ensures !accepted ==> phase == old(phase) && text == old(text) && clipboard == old(clipboard)
      ensures accepted ==> phase == 0 && text == CopyIdleLabel
      ensures accepted ==>
        var copied := ProducesBlob(exporter, atob) && clipboardAccepts;
        && shownPhase == (if copied then 2 else -1)
        && shownText == (if copied then CopySuccessLabel else CopyFailureLabel)
        && clipboard == old(clipboard) + (if copied then [ExportedPng(exporter, atob).value] else [])
    {
      shownPhase, shownText := phase, text;
      accepted := Press();
      if accepted {
        ExportSettled(exporter, atob, clipboardAccepts);
        shownPhase, shownText := phase, text;
        DwellElapsed();
      }
    }
  }

  /** Copy while the exporting plugin is not attached: the button shows the
      failure icon and text during the dwell, then returns to idle. */
  method CopyWithoutExporter(atob: string -> Option<string>)
    returns (accepted: bool, shownIcon: CopyIcon, shownText: string, finalPhase: int, finalText: string)
    ensures accepted
    ensures shownIcon == CircleX && shownText == CopyFailureLabel
    ensures finalPhase == 0 && finalText == CopyIdleLabel
  {
    var button := new CopyButton();
    accepted := button.Press();
    button.ExportSettled(NotAttached, atob, true);
    shownIcon, shownText := CopyIconFor(button.phase), button.text;
    button.DwellElapsed();
    finalPhase, finalText := button.phase, button.text;
  }
}
