/**
 * The stdio deployment: four tool declarations and the handler bodies that
 * call the backend adapter and shape its outcome into a tool response with
 * a single text content block. Transport, registration and argument
 * validation belong to the protocol library and are not modelled.
 */
module StdioServer {
  import opened Optional
  import opened Text
  import opened SolidWorks
  import opened Schema

  /** A content block, `{type, text}`. */
  datatype ContentBlock = ContentBlock(kind: string, text: string)

  /** A tool response; `isError` is None when the field is absent. */
  datatype ToolResponse = ToolResponse(content: seq<ContentBlock>, isError: Option<bool>)

  /** The response holds exactly one content block, of type "text". */
  predicate SingleText(r: ToolResponse) {
    |r.content| == 1 && r.content[0].kind == "text"
  }

  function TextOf(r: ToolResponse): (text: string)
    requires SingleText(r)
  {
    r.content[0].text
  }

  /** `{content: [{type: "text", text}]}`, without `isError`. */
  function TextResponse(text: string): (r: ToolResponse)
    ensures SingleText(r) && TextOf(r) == text && r.isError == None
  {
    ToolResponse([ContentBlock("text", text)], None)
  }

  /** `{isError: true, content: [{type: "text", text}]}`. */
  function ErrorResponse(text: string): (r: ToolResponse)
    ensures SingleText(r) && TextOf(r) == text && r.isError == Some(true)
  {
    ToolResponse([ContentBlock("text", text)], Some(true))
  }

  const OpenedPrefix := "Successfully opened document: "
  const OpenFailedPrefix := "Failed to open document: "
  const PropertiesPrefix := "Model Properties for "
  const PropertiesErrorPrefix := "Error getting model properties: "
  const CreatedPrefix := "Created new part at "
  const CreateErrorPrefix := "Error creating new part: "
  const ExportedPrefix := "Successfully exported to PDF: "
  const ExportFailedText := "Failed to export to PDF"

  const OpenDocumentSpec := ToolSpec(
    "open_document",
    "Opens a SolidWorks document file (.SLDPRT, .SLDASM, .SLDDRW)",
    [Param("filePath", "Full path to the SolidWorks document file", StringParam, true)])

  const ModelPropertiesSpec := ToolSpec(
    "get_model_properties",
    "Gets properties and metadata of a SolidWorks model",
    [Param("filePath", "Path to the SolidWorks model file", StringParam, true)])

  const NewPartSpec := ToolSpec(
    "create_new_part",
    "Creates a new empty SolidWorks part file",
    [])

  const ExportSpec := ToolSpec(
    "export_to_pdf",
    "Exports a SolidWorks document to PDF format",
    [Param("filePath", "Path to the SolidWorks document to export", StringParam, true),
     Param("outputPath", "Path where the PDF file should be saved", StringParam, true)])

  const Tools := [OpenDocumentSpec, ModelPropertiesSpec, NewPartSpec, ExportSpec]

  /** The four declared tools have distinct names and the declared parameters. */
  lemma DeclaredTools()
    ensures NamesDistinct(Tools)
    ensures RequiredStrings(OpenDocumentSpec.params) == ["filePath"]
    ensures |OpenDocumentSpec.params| == 1
    ensures RequiredStrings(ModelPropertiesSpec.params) == ["filePath"]
    ensures |ModelPropertiesSpec.params| == 1
    ensures NewPartSpec.params == []
    ensures RequiredStrings(ExportSpec.params) == ["filePath", "outputPath"]
    ensures |ExportSpec.params| == 2
  {
  }

  /** Reads an `open_document` text back as (opened, file path). */
  function ReadOpenDocument(text: string): (reading: Option<(bool, string)>)
  {
    match StripPrefix(OpenedPrefix, text)
    case Some(path) => Some((true, path))
    case None =>
      match StripPrefix(OpenFailedPrefix, text)
      case Some(path) => Some((false, path))
      case None => None
  }

  /**
   * `open_document`'s response: one text block, never `isError`, from which
   * both the backend's answer and the file path can be read back.
   */
  function OpenDocumentResponse(filePath: string, success: bool): (r: ToolResponse)
    ensures SingleText(r) && r.isError == None
    ensures ReadOpenDocument(TextOf(r)) == Some((success, filePath))
  {
    StripPrefixAppend(OpenedPrefix, filePath);
    StripPrefixAppend(OpenFailedPrefix, filePath);
    assert (OpenFailedPrefix + filePath)[0] != OpenedPrefix[0];
    TextResponse(if success then OpenedPrefix + filePath else OpenFailedPrefix + filePath)
  }

  /**
   * `get_model_properties`' response: on a returned bag, the file's last
   * path segment and the serialised bag without `isError`; on a throw,
   * `isError` and the thrown message after a fixed prefix. The two texts
   * are told apart by that prefix.
   */
  function ModelPropertiesResponse(
    filePath: string, outcome: Outcome<PropertyBag>, serialise: PropertyBag -> string)
    : (r: ToolResponse)
    ensures SingleText(r)
    ensures r.isError == (if outcome.Threw? then Some(true) else None)
    ensures outcome.Returned? ==>
      TextOf(r) == PropertiesPrefix + LastSegment(filePath) + ":\n" + serialise(outcome.value)
    ensures outcome.Threw? ==>
      StripPrefix(PropertiesErrorPrefix, TextOf(r)) == Some(ErrorText(outcome.error))
    ensures outcome.Returned? <==> StripPrefix(PropertiesErrorPrefix, TextOf(r)).None?
  {
    match outcome
    case Returned(bag) =>
      var text := PropertiesPrefix + LastSegment(filePath) + ":\n" + serialise(bag);
      assert text[0] != PropertiesErrorPrefix[0];
      TextResponse(text)
    case Threw(e) =>
      StripPrefixAppend(PropertiesErrorPrefix, ErrorText(e));
      ErrorResponse(PropertiesErrorPrefix + ErrorText(e))
  }

  /** Reads a `create_new_part` text back as the created part's path. */
  function ReadNewPart(text: string): (path: Option<string>)
  {
    StripPrefix(CreatedPrefix, text)
  }

  /**
   * `create_new_part`'s response: the created path can be read back from a
   * success, and a throw gives `isError` and the thrown message after a
   * fixed prefix instead.
   */
  function NewPartResponse(outcome: Outcome<string>): (r: ToolResponse)
    ensures SingleText(r)
    ensures r.isError == (if outcome.Threw? then Some(true) else None)
    ensures ReadNewPart(TextOf(r)) == (if outcome.Returned? then Some(outcome.value) else None)
    ensures outcome.Threw? ==>
      StripPrefix(CreateErrorPrefix, TextOf(r)) == Some(ErrorText(outcome.error))
  {
    match outcome
    case Returned(path) =>
      StripPrefixAppend(CreatedPrefix, path);
      TextResponse(CreatedPrefix + path)
    case Threw(e) =>
      StripPrefixAppend(CreateErrorPrefix, ErrorText(e));
      assert (CreateErrorPrefix + ErrorText(e))[0] != CreatedPrefix[0];
      ErrorResponse(CreateErrorPrefix + ErrorText(e))
  }

  /**
   * `export_to_pdf`'s response: never `isError`; the text starts with the
   * success prefix exactly when the export succeeded, followed by the output
   * path, and is a fixed text without any path otherwise.
   */
  function ExportResponse(outputPath: string, success: bool): (r: ToolResponse)
    ensures SingleText(r) && r.isError == None
    ensures success ==> StripPrefix(ExportedPrefix, TextOf(r)) == Some(outputPath)
    ensures !success ==> TextOf(r) == ExportFailedText
    ensures StripPrefix(ExportedPrefix, TextOf(r)).Some? <==> success
  {
    StripPrefixAppend(ExportedPrefix, outputPath);
    TextResponse(if success then ExportedPrefix + outputPath else ExportFailedText)
  }

  /** The `open_document` handler: one `openDocument` call, then its response. */
  method HandleOpenDocument(api: SolidWorksAPI, filePath: string, bridgeFails: bool, fault: Option<Thrown>)
    returns (r: ToolResponse)
    modifies api
    ensures api.GuardedCall(OpenDocumentCall(filePath), bridgeFails)
    ensures r == OpenDocumentResponse(filePath, fault.None?)
  {
    var success := api.OpenDocument(filePath, bridgeFails, fault);
    r := OpenDocumentResponse(filePath, success);
  }

  /** The `get_model_properties` handler: one `getModelProperties` call, its throw caught. */
  method HandleModelProperties(
    api: SolidWorksAPI, filePath: string, bridgeFails: bool, fault: Option<Thrown>,
    serialise: PropertyBag -> string)
    returns (r: ToolResponse)
    modifies api
    ensures api.GuardedCall(GetModelPropertiesCall(filePath), bridgeFails)
    ensures fault.None? ==>
      r == ModelPropertiesResponse(filePath, Returned(ModelProperties(filePath)), serialise)
    ensures fault.Some? ==> r == ModelPropertiesResponse(filePath, Threw(fault.value), serialise)
  {
    var outcome := api.GetModelProperties(filePath, bridgeFails, fault);
    r := ModelPropertiesResponse(filePath, outcome, serialise);
  }

  /**
   * The `create_new_part` handler: one `createNewPart` call, its throw
   * caught; on success the response names a temporary part path carrying
   * the clock reading.
   */
  method HandleNewPart(api: SolidWorksAPI, now: nat, bridgeFails: bool, fault: Option<Thrown>)
    returns (r: ToolResponse)
    modifies api
    ensures api.GuardedCall(CreateNewPartCall, bridgeFails)
    ensures fault.None? ==> r == NewPartResponse(Returned(TempPartPath(now)))
    ensures fault.None? ==>
      ReadNewPart(TextOf(r)).Some? && PartStamp(ReadNewPart(TextOf(r)).value) == Some(now)
    ensures fault.Some? ==> r == NewPartResponse(Threw(fault.value))
  {
    var outcome := api.CreateNewPart(now, bridgeFails, fault);
    r := NewPartResponse(outcome);
  }

  /** The `export_to_pdf` handler: one `exportToPDF` call, then its response. */
  method HandleExport(
    api: SolidWorksAPI, filePath: string, outputPath: string, bridgeFails: bool, fault: Option<Thrown>)
    returns (r: ToolResponse)
    modifies api
    ensures api.GuardedCall(ExportToPdfCall(filePath, outputPath), bridgeFails)
    ensures r == ExportResponse(outputPath, fault.None?)
  {
    var success := api.ExportToPdf(filePath, outputPath, bridgeFails, fault);
    r := ExportResponse(outputPath, success);
  }
}
