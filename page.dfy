/**
 * `renderPage(liveStatus, miningFlag, address)` (index.js:77-130), reduced to
 * the parts of the document that depend on its arguments: the value put into
 * the address field and the optional status block.
 */
module Page {
  import opened Wrappers

  /** The three formal parameters of `renderPage`, as bound at a call. */
  datatype RenderArgs = RenderArgs(liveStatus: string, miningFlag: string, address: string)

  /** The "Mining Activity" word of the status block (index.js:124). */
  datatype Activity = Active | Stopped

  /** The status block: the optional live-status line, then the activity word. */
  datatype StatusBlock = StatusBlock(liveLine: Option<string>, activity: Activity)

  /** The variable parts of the rendered document. */
  datatype RenderedPage = RenderedPage(formValue: string, status: Option<StatusBlock>)

  /**
   * Binds the positional arguments of a call to `renderPage`'s three
   * parameters. JavaScript ignores surplus arguments, so a fourth one is lost.
   */
  function RenderCall(args: seq<string>): (r: RenderArgs)
    requires |args| >= 3
    ensures r.liveStatus == args[0] && r.miningFlag == args[1] && r.address == args[2]
  {
    RenderArgs(args[0], args[1], args[2])
  }

  /**
   * The template's conditionals (index.js:116, 121-124). The form shows the
   * bound address. The status block appears iff either the live status or
   * the flag is non-empty. Inside it the live line appears iff the live
   * status is non-empty. The activity is "active" iff the flag is non-empty,
   * whatever the flag says.
   */
  function RenderPage(a: RenderArgs): (p: RenderedPage)
    ensures p.formValue == a.address
    ensures p.status.Some? <==> a.liveStatus != "" || a.miningFlag != ""
    ensures p.status.Some? ==>
      (p.status.value.liveLine == Some(a.liveStatus) <==> a.liveStatus != "")
      && (p.status.value.liveLine.None? <==> a.liveStatus == "")
      && (p.status.value.activity == Active <==> a.miningFlag != "")
  {
    RenderedPage(
      a.address,
      if a.liveStatus != "" || a.miningFlag != "" then
        Some(StatusBlock(
          if a.liveStatus != "" then Some(a.liveStatus) else None,
          if a.miningFlag != "" then Active else Stopped))
      else None)
  }

  /** A call with a fourth argument renders exactly as the call without it. */
  lemma SurplusArgumentIgnored(args: seq<string>, extra: string)
    requires |args| == 3
    ensures RenderPage(RenderCall(args + [extra])) == RenderPage(RenderCall(args))
  {
  }
}
