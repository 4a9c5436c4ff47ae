/** The process upload page: a chosen BPMN file, the upload flag pair and the name of
    the last deployed file. Only `.bpmn` and `.xml` names are accepted, whether the file
    is browsed for or dropped; the invariant `Valid` records that the page never holds
    any other name. */
module ProcessUpload {
  import opened Wrappers
  import opened Text
  import opened Api

  /** The extension check, case-sensitive as `endsWith` is. */
  predicate IsAcceptedName(name: string) {
    EndsWith(name, ".bpmn") || EndsWith(name, ".xml")
  }

  /** A name is accepted exactly when it is some stem followed by `.bpmn` or `.xml`. */
  lemma AcceptedNameExactly(name: string)
    ensures IsAcceptedName(name) <==> exists s :: name == s + ".bpmn" || name == s + ".xml"
  {
    if IsAcceptedName(name) {
      if EndsWith(name, ".bpmn") {
        assert name == name[..|name| - 5] + ".bpmn";
      } else {
        assert name == name[..|name| - 4] + ".xml";
      }
    }
    if exists s :: name == s + ".bpmn" || name == s + ".xml" {
      var s :| name == s + ".bpmn" || name == s + ".xml";
      assert name[|s|..] == name[|name| - (|name| - |s|)..];
    }
  }

  /** The check is case-sensitive: whatever the stem, the lower-case extensions are
      accepted and the upper-case ones refused. */
  lemma ExtensionCaseSensitive(stem: string)
    ensures IsAcceptedName(stem + ".bpmn") && IsAcceptedName(stem + ".xml")
    ensures !IsAcceptedName(stem + ".BPMN") && !IsAcceptedName(stem + ".XML")
  {
    assert (stem + ".bpmn")[|stem|..] == ".bpmn";
    assert (stem + ".xml")[|stem|..] == ".xml";
    var upper, upperXml := stem + ".BPMN", stem + ".XML";
    assert upper[|upper| - 5..] == ".BPMN";
    assert upper[|upper| - 4..] == "BPMN";
    assert upperXml[|upperXml| - 4..] == ".XML";
  }

  class UploadPage {
    var file: Option<File>
    var uploading: bool
    var uploaded: bool
    var deployedProcess: Option<string>

    /** Only accepted names are ever held. */
    ghost predicate Valid()
      reads this
    {
      && (file.Some? ==> IsAcceptedName(file.value.name))
      && (deployedProcess.Some? ==> IsAcceptedName(deployedProcess.value))
    }

    constructor ()
      ensures Valid()
      ensures file.None? && !uploading && !uploaded && deployedProcess.None?
    {
      file := None;
      uploading := false;
      uploaded := false;
      deployedProcess := None;
    }

    /** The success card is rendered when `uploaded && deployedProcess` is truthy; under
        the invariant that is exactly when a deployed name is recorded. */
    function ShowSuccessCard(): (shown: bool)
      reads this
      ensures Valid() ==> (shown <==> uploaded && deployedProcess.Some?)
    {
      uploaded && deployedProcess.Some? && deployedProcess.value != ""
    }

    /** `handleFileSelect` and `handleDrop`, which run the same rule on the first
        browsed or dropped file, if any: an accepted file is taken and the page forgets
        a previous upload; a refused file (for which the page shows an "Invalid file
        type" toast) changes nothing. */
    method HandleChosenFile(selected: Option<File>) returns (refused: bool)
      requires Valid()
      modifies this
      ensures Valid()
      ensures refused <==> selected.Some? && !IsAcceptedName(selected.value.name)
      ensures selected.Some? && IsAcceptedName(selected.value.name) ==> file == selected && !uploaded
      ensures !(selected.Some? && IsAcceptedName(selected.value.name)) ==> file == old(file) && uploaded == old(uploaded)
      ensures uploading == old(uploading) && deployedProcess == old(deployedProcess)
    {
      refused := false;
      if selected.Some? {
        if EndsWith(selected.value.name, ".bpmn") || EndsWith(selected.value.name, ".xml") {
          file := selected;
          uploaded := false;
        } else {
          refused := true;
        }
      }
    }

    /** `handleUpload()` given the outcome of `deployProcess(file)`: with no file nothing
        happens; otherwise the file is sent and the upload counts as done exactly when
        the reply reports `Deployed`, which records the file's name. Uploading ends on
        every path, a thrown call included. */
    method HandleUpload(call: Call<StatusReply>) returns (sent: Option<File>, deployed: bool)
      requires Valid()
      modifies this
      ensures Valid()
      ensures old(file).None? ==> sent.None? && !deployed && uploading == old(uploading)
      ensures old(file).Some? ==> sent == old(file) && !uploading
      ensures deployed <==> old(file).Some? && call.Returned? && call.response.data.Some?
                            && call.response.data.value.status == Some("Deployed")
      ensures deployed ==> uploaded && deployedProcess == Some(old(file).value.name)
      ensures !deployed ==> uploaded == old(uploaded) && deployedProcess == old(deployedProcess)
      ensures file == old(file)
    {
      deployed := false;
      if file.None? {
        return None, false;
      }
      sent := file;
      uploading := true;
      match call {
        case Threw(_) =>
        case Returned(response) =>
          if response.data.Some? && response.data.value.status == Some("Deployed") {
            uploaded := true;
            deployedProcess := Some(file.value.name);
            deployed := true;
          }
      }
      uploading := false;
    }
  }
}
