/**
 * The HTTP deployment's tool descriptors: each declares its parameters as
 * constant data and has an `execute` body that calls the backend adapter
 * and shapes its outcome into a `{success, message, ...}` record.
 */
module HttpTools {
  import opened Optional
  import opened Text
  import opened SolidWorks
  import opened Schema

  /**
   * An `execute` result. `success` is present on every branch; each of the
   * other fields is None when the record does not carry it.
   */
  datatype ExecResult = ExecResult(
    success: bool,
    message: Option<string>,
    properties: Option<PropertyBag>,
    filePath: Option<string>)

  const OpenedPrefix := "Successfully opened document: "
  const OpenFailedPrefix := "Failed to open document: "
  const PropertiesErrorPrefix := "Error getting model properties: "
  const CreatedPrefix := "Created new part at "
  const CreateErrorPrefix := "Error creating new part: "
  const ExportedPrefix := "Successfully exported to PDF: "
  const ExportFailedText := "Failed to export to PDF"

  const OpenDocumentTool := ToolSpec(
    "open_solidworks_document",
    "Opens a SolidWorks document file (.SLDPRT, .SLDASM, .SLDDRW)",
    [Param("filePath", "Full path to the SolidWorks document file", StringParam, true)])

  const ModelPropertiesTool := ToolSpec(
    "get_model_properties",
    "Gets properties and metadata of a SolidWorks model",
    [Param("filePath", "Path to the SolidWorks model file", StringParam, true)])

  const NewPartTool := ToolSpec(
    "create_new_part",
    "Creates a new empty SolidWorks part file",
    [])

  const ExportTool := ToolSpec(
    "export_to_pdf",
    "Exports a SolidWorks document to PDF format",
    [Param("filePath", "Path to the SolidWorks document to export", StringParam, true),
     Param("outputPath", "Path where the PDF file should be saved", StringParam, true)])

  const Tools := [OpenDocumentTool, ModelPropertiesTool, NewPartTool, ExportTool]

  /** The four descriptors have distinct names and the declared parameters. */
  lemma DeclaredTools()
    ensures NamesDistinct(Tools)
    ensures RequiredStrings(OpenDocumentTool.params) == ["filePath"]
    ensures |OpenDocumentTool.params| == 1
    ensures RequiredStrings(ModelPropertiesTool.params) == ["filePath"]
    ensures |ModelPropertiesTool.params| == 1
    ensures NewPartTool.params == []
    ensures RequiredStrings(ExportTool.params) == ["filePath", "outputPath"]
    ensures |ExportTool.params| == 2
  {
  }

  /**
   * `open_solidworks_document`: `success` is the backend's answer and the
   * message starts with the success prefix exactly when it is true, the file
   * path following either prefix.
   */
  function OpenDocumentResult(filePath: string, success: bool): (r: ExecResult)
    ensures r.success == success
    ensures r.properties.None? && r.filePath.None? && r.message.Some?
    ensures success ==> StripPrefix(OpenedPrefix, r.message.value) == Some(filePath)
    ensures !success ==> StripPrefix(OpenFailedPrefix, r.message.value) == Some(filePath)
    ensures StripPrefix(OpenedPrefix, r.message.value).Some? <==> success
  {
    StripPrefixAppend(OpenedPrefix, filePath);
    StripPrefixAppend(OpenFailedPrefix, filePath);
    assert (OpenFailedPrefix + filePath)[0] != OpenedPrefix[0];
    ExecResult(
      success,
      Some(if success then OpenedPrefix + filePath else OpenFailedPrefix + filePath),
      None,
      None)
  }

  /**
   * `get_model_properties`: a returned bag is passed on unchanged with
   * `success` and no message; a throw gives no bag, `success` false and the
   * thrown message after a fixed prefix.
   */
  function ModelPropertiesResult(outcome: Outcome<PropertyBag>): (r: ExecResult)
    ensures r.success <==> outcome.Returned?
    ensures r.properties == (if outcome.Returned? then Some(outcome.value) else None)
    ensures r.filePath.None?
    ensures r.message.Some? <==> outcome.Threw?
    ensures outcome.Threw? ==>
      StripPrefix(PropertiesErrorPrefix, r.message.value) == Some(ErrorText(outcome.error))
  {
    match outcome
    case Returned(bag) => ExecResult(true, None, Some(bag), None)
    case Threw(e) =>
      StripPrefixAppend(PropertiesErrorPrefix, ErrorText(e));
      ExecResult(false, Some(PropertiesErrorPrefix + ErrorText(e)), None, None)
  }

  /**
   * `create_new_part`: a returned path is reported as `filePath` and read
   * back from the message; a throw gives no `filePath`, `success` false and
   * the thrown message after a fixed prefix.
   */
  function NewPartResult(outcome: Outcome<string>): (r: ExecResult)
    ensures r.success <==> outcome.Returned?
    ensures r.filePath == (if outcome.Returned? then Some(outcome.value) else None)
    ensures r.properties.None? && r.message.Some?
    ensures StripPrefix(CreatedPrefix, r.message.value) == r.filePath
    ensures outcome.Threw? ==>
      StripPrefix(CreateErrorPrefix, r.message.value) == Some(ErrorText(outcome.error))
  {
    match outcome
    case Returned(path) =>
      StripPrefixAppend(CreatedPrefix, path);
      ExecResult(true, Some(CreatedPrefix + path), None, Some(path))
    case Threw(e) =>
      StripPrefixAppend(CreateErrorPrefix, ErrorText(e));
      assert (CreateErrorPrefix + ErrorText(e))[0] != CreatedPrefix[0];
      ExecResult(false, Some(CreateErrorPrefix + ErrorText(e)), None, None)
  }

  /**
   * `export_to_pdf`: `success` is the backend's answer; the message names
   * the output path after the success prefix when it is true, and is a
   * fixed text without any path otherwise.
   */
  function ExportResult(outputPath: string, success: bool): (r: ExecResult)
    ensures r.success == success
    ensures r.properties.None? && r.filePath.None? && r.message.Some?
    ensures success ==> StripPrefix(ExportedPrefix, r.message.value) == Some(outputPath)
    ensures !success ==> r.message.value == ExportFailedText
    ensures StripPrefix(ExportedPrefix, r.message.value).Some? <==> success
  {
    StripPrefixAppend(ExportedPrefix, outputPath);
    ExecResult(
      success,
      Some(if success then ExportedPrefix + outputPath else ExportFailedText),
      None,
      None)
  }

  /** `open_solidworks_document`'s `execute`: one `openDocument` call, then its record. */
  method ExecuteOpenDocument(api: SolidWorksAPI, filePath: string, bridgeFails: bool, fault: Option<Thrown>)
    returns (r: ExecResult)
    modifies api
    ensures api.GuardedCall(OpenDocumentCall(filePath), bridgeFails)
    ensures r == OpenDocumentResult(filePath, fault.None?)
  {
    var success := api.OpenDocument(filePath, bridgeFails, fault);
    r := OpenDocumentResult(filePath, success);
  }

  /** `get_model_properties`' `execute`: one `getModelProperties` call, its throw caught. */
  method ExecuteModelProperties(api: SolidWorksAPI, filePath: string, bridgeFails: bool, fault: Option<Thrown>)
    returns (r: ExecResult)
    modifies api
    ensures api.GuardedCall(GetModelPropertiesCall(filePath), bridgeFails)
    ensures fault.None? ==> r == ModelPropertiesResult(Returned(ModelProperties(filePath)))
    ensures fault.Some? ==> r == ModelPropertiesResult(Threw(fault.value))
  {
    var outcome := api.GetModelProperties(filePath, bridgeFails, fault);
    r := ModelPropertiesResult(outcome);
  }

  /** `create_new_part`'s `execute`: one `createNewPart` call, its throw caught. */
  method ExecuteNewPart(api: SolidWorksAPI, now: nat, bridgeFails: bool, fault: Option<Thrown>)
    returns (r: ExecResult)
    modifies api
    ensures api.GuardedCall(CreateNewPartCall, bridgeFails)
    ensures fault.None? ==> r == NewPartResult(Returned(TempPartPath(now)))
    ensures fault.Some? ==> r == NewPartResult(Threw(fault.value))
  {
    var outcome := api.CreateNewPart(now, bridgeFails, fault);
    r := NewPartResult(outcome);
  }

  /** `export_to_pdf`'s `execute`: one `exportToPDF` call, then its record. */
  method ExecuteExport(
    api: SolidWorksAPI, filePath: string, outputPath: string, bridgeFails: bool, fault: Option<Thrown>)
    returns (r: ExecResult)
    modifies api
    ensures api.GuardedCall(ExportToPdfCall(filePath, outputPath), bridgeFails)
    ensures r == ExportResult(outputPath, fault.None?)
  {
    var success := api.ExportToPdf(filePath, outputPath, bridgeFails, fault);
    r := ExportResult(outputPath, success);
  }
}
