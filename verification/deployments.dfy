/**
 * How the two deployments relate: wherever the HTTP record carries a
 * message, it is the text of the stdio response for the same backend
 * outcome (a successful `get_model_properties` record carries the bag and
 * no message), and both declare the same parameters for corresponding tools.
 */
module Deployments {
  import opened Optional
  import opened SolidWorks
  import opened Schema
  import StdioServer
  import HttpTools

  /** Every HTTP message equals the text of the matching stdio response. */
  lemma SameMessages(filePath: string, outputPath: string, success: bool, e: Thrown, path: string)
    ensures HttpTools.OpenDocumentResult(filePath, success).message
         == Some(StdioServer.TextOf(StdioServer.OpenDocumentResponse(filePath, success)))
    ensures HttpTools.ExportResult(outputPath, success).message
         == Some(StdioServer.TextOf(StdioServer.ExportResponse(outputPath, success)))
    ensures HttpTools.NewPartResult(Returned(path)).message
         == Some(StdioServer.TextOf(StdioServer.NewPartResponse(Returned(path))))
    ensures HttpTools.NewPartResult(Threw(e)).message
         == Some(StdioServer.TextOf(StdioServer.NewPartResponse(Threw(e))))
  {
  }

  /**
   * A failed `get_model_properties` reports the same text in both; the HTTP
   * record reports failure where the stdio response sets `isError`.
   */
  lemma SameModelPropertiesError(
    filePath: string, outcome: Outcome<PropertyBag>, serialise: PropertyBag -> string)
    ensures HttpTools.ModelPropertiesResult(outcome).success
        <==> StdioServer.ModelPropertiesResponse(filePath, outcome, serialise).isError.None?
    ensures outcome.Threw? ==>
      HttpTools.ModelPropertiesResult(outcome).message
        == Some(StdioServer.TextOf(StdioServer.ModelPropertiesResponse(filePath, outcome, serialise)))
  {
  }

  /** Corresponding tools declare identical parameter lists. */
  lemma SameParameters()
    ensures |StdioServer.Tools| == |HttpTools.Tools|
    ensures forall i :: 0 <= i < |HttpTools.Tools| ==>
      StdioServer.Tools[i].params == HttpTools.Tools[i].params
    ensures StdioServer.Tools[0].name != HttpTools.Tools[0].name
    ensures forall i :: 1 <= i < |HttpTools.Tools| ==>
      StdioServer.Tools[i].name == HttpTools.Tools[i].name
  {
  }
}
