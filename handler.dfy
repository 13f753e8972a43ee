/**
 * The request handler `fetch(request)` (index.js:2-74) with its I/O turned
 * into inputs: the request's method and form field, and the outcome of each
 * upstream step (the live-log call, then the two claim calls around the
 * 30-second wait), each of which either returns a reply or throws.
 */
module Handler {
  import opened Wrappers
  import opened Page
  import Address
  import Decimal

  /** The parts of the inbound request the handler reads: `request.method` and the form field `address`. */
  datatype Request = Request(verb: string, address: Option<string>)

  /** `liveData.liveInfo` of the live-log reply. */
  datatype LiveInfo = LiveInfo(minedTokens: string, speedPerSec: string)

  /** The live-log reply; `success` stands for its truthiness. */
  datatype LiveReply = LiveReply(
    success: bool,
    liveInfo: Option<LiveInfo>,
    error: Option<string>,
    message: Option<string>)

  /** An awaited upstream step: it throws with a message or yields a reply. */
  datatype Step<+T> = Raised(message: string) | Returned(value: T)

  /**
   * The three upstream steps in the order they run. A claim reply is reduced
   * to `claimData?.minedTokens`, missing or null being `None`.
   */
  datatype Upstream = Upstream(
    live: Step<LiveReply>,
    before: Step<Option<string>>,
    after: Step<Option<string>>)

  const InvalidAddressText: string := "❌ Invalid EVM address"
  const ApiErrorPrefix: string := "❌ API Error: "
  const ErrorPrefix: string := "❌ Error: "
  const Separator: string := " | "

  /** `parts.join(sep)` for an array of strings. */
  function Join(parts: seq<string>, sep: string): string {
    if |parts| == 0 then ""
    else if |parts| == 1 then parts[0]
    else parts[0] + sep + Join(parts[1..], sep)
  }

  /** Joining puts exactly one separator between neighbours and none at the ends. */
  lemma {:induction false} JoinAppend(parts: seq<string>, last: string, sep: string)
    requires |parts| > 0
    ensures Join(parts + [last], sep) == Join(parts, sep) + sep + last
  {
    if |parts| > 1 {
      assert (parts + [last])[1..] == parts[1..] + [last];
      JoinAppend(parts[1..], last, sep);
    } else {
      assert (parts + [last])[1..] == [last];
    }
  }

  /** A template substitution `${v}` of a string or of `undefined`. */
  function TemplateText(v: Option<string>): string {
    match v
    case Some(s) => s
    case None => "undefined"
  }

  /** `liveData.error || liveData.message`: the error when it is a non-empty string. */
  function ErrorDetail(reply: LiveReply): string {
    if reply.error.Some? && reply.error.value != "" then reply.error.value else TemplateText(reply.message)
  }

  /**
   * The live-status line (index.js:25-34). `formatTokens` divides by 1e18 in
   * floating point and is taken as the parameter `fmt`. A failed reply
   * reports the upstream error, or its message when the error is missing or
   * empty; a good one yields the two segments joined by " | ". Either way the
   * line is non-empty.
   */
  function LiveStatus(reply: LiveReply, fmt: string -> string): (line: string)
    ensures (!reply.success || reply.liveInfo.None?) && reply.error.Some? && reply.error.value != "" ==>
      line == ApiErrorPrefix + reply.error.value
    ensures (!reply.success || reply.liveInfo.None?) && (reply.error.None? || reply.error.value == "") ==>
      line == ApiErrorPrefix + TemplateText(reply.message)
    ensures reply.success && reply.liveInfo.Some? ==>
      line ==
        "Avail to claim: " + fmt(reply.liveInfo.value.minedTokens) + " NPT"
        + " | " + "Speed: " + fmt(reply.liveInfo.value.speedPerSec) + "/s"
    ensures line != ""
  {
    if !reply.success || reply.liveInfo.None? then
      ApiErrorPrefix + ErrorDetail(reply)
    else
      var info := reply.liveInfo.value;
      var mined := "Avail to claim: " + fmt(info.minedTokens) + " NPT";
      var speed := "Speed: " + fmt(info.speedPerSec) + "/s";
      JoinAppend([mined], speed, Separator);
      assert [mined] + [speed] == [mined, speed];
      Join([mined, speed], Separator)
  }

  /** `minedTokens || '0'`: a missing or empty amount reads as "0". */
  function ClaimText(raw: Option<string>): string {
    if raw.None? || raw.value == "" then "0" else raw.value
  }

  /**
   * `BigInt(minedTokens || '0')` (index.js:43, 53): a missing or empty amount
   * is 0, any other amount is what `BigInt` reads from it.
   */
  function ClaimAmount(raw: Option<string>): (r: Result<int>)
    ensures raw.None? || raw == Some("") ==> r == Ok(0)
    ensures raw.Some? && raw.value != "" ==> r == Decimal.ParseBigInt(raw.value)
    ensures raw.Some? && raw.value != "" ==> (r.Ok? <==> Decimal.AllDigits(raw.value))
    ensures r.Ok? ==> r.value >= 0
    ensures r.Err? ==> raw.Some? && r.message == Decimal.BigIntSyntaxMessage(raw.value)
  {
    Decimal.ParseBigIntOfText(0);
    Decimal.ParseBigInt(ClaimText(raw))
  }

  /** `Boolean.prototype.toString`: "true" or "false", never empty. */
  function BoolText(b: bool): (text: string)
    ensures text == "true" <==> b
    ensures text == "false" <==> !b
    ensures text != ""
  {
    if b then "true" else "false"
  }

  /** Every upstream step returns and both claim amounts parse. */
  predicate StepsSucceed(up: Upstream) {
    up.live.Returned? && up.before.Returned? && ClaimAmount(up.before.value).Ok?
    && up.after.Returned? && ClaimAmount(up.after.value).Ok?
  }

  /**
   * The body of the `try` block (index.js:15-61) for an accepted address:
   * the arguments of the success call to `renderPage`, or the message of
   * the first exception. It succeeds exactly when every step does, and then
   * passes a non-empty live status, a non-empty flag and the address.
   */
  function Monitor(address: string, up: Upstream, fmt: string -> string): (r: Result<RenderArgs>)
    ensures r.Ok? <==> StepsSucceed(up)
    ensures r.Ok? ==> r.value.liveStatus != "" && r.value.miningFlag != "" && r.value.address == address
  {
    match up.live
    case Raised(m) => Err(m)
    case Returned(reply) =>
      var liveStatus := LiveStatus(reply, fmt);
      match up.before
      case Raised(m) => Err(m)
      case Returned(rawBefore) =>
        match ClaimAmount(rawBefore)
        case Err(m) => Err(m)
        case Ok(before) =>
          match up.after
          case Raised(m) => Err(m)
          case Returned(rawAfter) =>
            match ClaimAmount(rawAfter)
            case Err(m) => Err(m)
            case Ok(after) =>
              Ok(RenderCall([liveStatus, BoolText(after > before), address]))
  }

  /** The whole POST path succeeds, as opposed to the GET page, a rejected address or an exception. */
  predicate Succeeds(req: Request, up: Upstream) {
    req.verb == "POST" && Address.Accepted(req.address) && StepsSucceed(up)
  }

  /**
   * `fetch(request)` up to the arguments that reach `renderPage`. The live
   * status is non-empty exactly on POST; the flag and the address are
   * non-empty exactly on the success path, and the address is then the
   * submitted one.
   */
  function Handle(req: Request, up: Upstream, fmt: string -> string): (r: RenderArgs)
    ensures r.liveStatus != "" <==> req.verb == "POST"
    ensures r.miningFlag != "" <==> Succeeds(req, up)
    ensures r.address != "" <==> Succeeds(req, up)
    ensures Succeeds(req, up) ==> r.address == req.address.value
  {
    if req.verb != "POST" then
      RenderCall(["", "", ""])
    else if !Address.Accepted(req.address) then
      RenderCall([InvalidAddressText, "", "", req.address.GetOr("")])
    else
      match Monitor(req.address.value, up, fmt)
      case Ok(args) => args
      case Err(m) => RenderCall([ErrorPrefix + m, "", "", req.address.value])
  }

  /**
   * The page a request produces. The status block is shown exactly for POST
   * requests. On a POST the activity reads "stopped" exactly when the
   * address is rejected or some step fails, so a computed flag, "false"
   * included, reads "active". The form field is filled exactly on the
   * success path, and then with the submitted address.
   */
  function Serve(req: Request, up: Upstream, fmt: string -> string): (p: RenderedPage)
    ensures p.status.Some? <==> req.verb == "POST"
    ensures req.verb == "POST" ==> (p.status.value.activity == Stopped <==> !Succeeds(req, up))
    ensures p.formValue != "" <==> Succeeds(req, up)
    ensures Succeeds(req, up) ==> p.formValue == req.address.value
  {
    RenderPage(Handle(req, up, fmt))
  }

  /**
   * The first step that fails decides the message, and later steps are
   * never consulted; when all succeed the page gets the live status, the
   * flag "true" iff the second amount exceeds the first, and the address.
   */
  lemma MonitorOutcome(address: string, up: Upstream, fmt: string -> string)
    ensures up.live.Raised? ==> Monitor(address, up, fmt) == Err(up.live.message)
    ensures up.live.Returned? && up.before.Raised? ==>
      Monitor(address, up, fmt) == Err(up.before.message)
    ensures up.live.Returned? && up.before.Returned? && ClaimAmount(up.before.value).Err? ==>
      Monitor(address, up, fmt) == Err(Decimal.BigIntSyntaxMessage(up.before.value.value))
    ensures (up.live.Returned? && up.before.Returned? && ClaimAmount(up.before.value).Ok?
             && up.after.Raised?) ==>
      Monitor(address, up, fmt) == Err(up.after.message)
    ensures (up.live.Returned? && up.before.Returned? && ClaimAmount(up.before.value).Ok?
             && up.after.Returned? && ClaimAmount(up.after.value).Err?) ==>
      Monitor(address, up, fmt) == Err(Decimal.BigIntSyntaxMessage(up.after.value.value))
    ensures StepsSucceed(up) ==>
      var before := ClaimAmount(up.before.value).value;
      var after := ClaimAmount(up.after.value).value;
      Monitor(address, up, fmt) ==
        Ok(RenderArgs(LiveStatus(up.live.value, fmt), BoolText(after > before), address))
  {
  }

  /**
   * The mining flag the handler computes from two claim replies that carry
   * the amounts `before` and `after` is "true" iff `after > before`, and
   * "false" iff `after <= before`.
   */
  lemma MiningFlagOfClaims(address: string, reply: LiveReply, fmt: string -> string, before: nat, after: nat)
    ensures var up := Upstream(Returned(reply),
                               Returned(Some(Decimal.DecimalText(before))),
                               Returned(Some(Decimal.DecimalText(after))));
      Monitor(address, up, fmt).Ok?
      && (Monitor(address, up, fmt).value.miningFlag == "true" <==> after > before)
      && (Monitor(address, up, fmt).value.miningFlag == "false" <==> after <= before)
  {
  }

  /** A claim reply without an amount counts as 0, so any positive amount afterwards reads as mining. */
  lemma MiningFlagFromNothing(address: string, reply: LiveReply, fmt: string -> string, after: nat)
    ensures var up := Upstream(Returned(reply), Returned(None), Returned(Some(Decimal.DecimalText(after))));
      Monitor(address, up, fmt).Ok?
      && (Monitor(address, up, fmt).value.miningFlag == "true" <==> after > 0)
  {
  }

  /**
   * On the success path the handler passes `renderPage` the live status, the
   * flag "true" iff the second claim amount exceeds the first, and the
   * submitted address.
   */
  lemma HandleSuccess(req: Request, up: Upstream, fmt: string -> string)
    requires Succeeds(req, up)
    ensures Handle(req, up, fmt) ==
      RenderArgs(LiveStatus(up.live.value, fmt),
                 BoolText(ClaimAmount(up.after.value).value > ClaimAmount(up.before.value).value),
                 req.address.value)
  {
    MonitorOutcome(req.address.value, up, fmt);
  }

  /** A request other than POST gets the empty form and no status block. */
  lemma NonPostPage(req: Request, up: Upstream, fmt: string -> string)
    requires req.verb != "POST"
    ensures Handle(req, up, fmt) == RenderArgs("", "", "")
    ensures Serve(req, up, fmt) == RenderedPage("", None)
  {
  }

  /**
   * A rejected address shows the invalid-address line and "stopped", and the
   * form field stays empty: the address went in as a surplus fourth argument.
   */
  lemma InvalidAddressPage(req: Request, up: Upstream, fmt: string -> string)
    requires req.verb == "POST" && !Address.Accepted(req.address)
    ensures Handle(req, up, fmt) == RenderArgs(InvalidAddressText, "", "")
    ensures Serve(req, up, fmt) == RenderedPage("", Some(StatusBlock(Some(InvalidAddressText), Stopped)))
  {
  }

  /**
   * An exception in any upstream step or amount parse shows "❌ Error: "
   * with its message, "stopped", and an empty form field.
   */
  lemma ErrorPage(req: Request, up: Upstream, fmt: string -> string)
    requires req.verb == "POST" && Address.Accepted(req.address)
    requires Monitor(req.address.value, up, fmt).Err?
    ensures Handle(req, up, fmt) ==
      RenderArgs(ErrorPrefix + Monitor(req.address.value, up, fmt).message, "", "")
    ensures Serve(req, up, fmt) ==
      RenderedPage("", Some(StatusBlock(Some(ErrorPrefix + Monitor(req.address.value, up, fmt).message), Stopped)))
  {
  }

  /**
   * When every step succeeds the form echoes the address, the live line is
   * shown, and the activity is "active" even when the flag is "false".
   */
  lemma SuccessPage(req: Request, up: Upstream, fmt: string -> string)
    requires Succeeds(req, up)
    ensures Serve(req, up, fmt) ==
      RenderedPage(req.address.value, Some(StatusBlock(Some(LiveStatus(up.live.value, fmt)), Active)))
  {
  }
}
