/**
 * The ECR scan-finding notifier of slack_send/cmd/slack_send/main.go: it turns
 * the severity counts of a finished image scan into a coloured Slack
 * attachment and posts it to an incoming webhook. The HTTP exchange is
 * abstracted as the reply it produced; the clock as the Unix time `now`;
 * the decrypted webhook URL, user name and channel as parameters.
 */
module SlackSend {
  import opened Wrappers
  import opened Decimal
  import opened Strings

  /** `DefaultSlackTimeout = 5 * time.Second`, a `time.Duration` in nanoseconds. */
  const DefaultSlackTimeout: Int64 := 5_000_000_000
  const DefaultEmoji := ":hammer_and_wrench"
  /** The only reply body the webhook sends on success. */
  const AckBody := "ok"
  const MethodPost := "POST"
  const ContentTypeJson := "application/json"
  const ScanFindingsText := "Amazon ECR Image Scan Findings Description"
  const ConsolePrefix := "https://console.aws.amazon.com/ecr/repositories/"
  const ImageSegment := "/image/"
  const ScanResultsSuffix := "/scan-results/?region=ap-southeast-1"

  datatype SlackClient = SlackClient(webHookUrl: string, userName: string, channel: string, timeOut: Int64)

  datatype SimpleSlackRequest = SimpleSlackRequest(text: string, iconEmoji: string)

  datatype SlackJobNotification = SlackJobNotification(
    color: string,
    iconEmoji: string,
    details: string,
    text: string,
    title: string,
    titleLink: string)

  /** The attachment fields the notifier sets; `ts` is the JSON number as written. */
  datatype Attachment = Attachment(color: string, text: string, ts: string, title: string, titleLink: string)

  datatype SlackMessage = SlackMessage(
    username: string,
    iconEmoji: string,
    channel: string,
    text: string,
    attachments: seq<Attachment>)

  /** The POST request sendHttpRequest issues. */
  datatype HttpRequest = HttpRequest(httpMethod: string, url: string, contentType: string, timeOut: Int64, body: SlackMessage)

  /** How the HTTP exchange ended, at the first step that failed. */
  datatype HttpReply =
    | RequestRejected(reason: string)  // http.NewRequest refused the URL
    | TransportFailed(reason: string)  // client.Do failed: unreachable host, timeout
    | ReadFailed(reason: string)       // reading the response body failed
    | Replied(body: string)            // the whole response body

  datatype DeliveryError =
    | RequestError(reason: string)
    | TransportError(reason: string)
    | ReadError(reason: string)
    | NonOkResponse  // "Non-ok response returned from Slack"

  datatype FindingSeverityCounts = FindingSeverityCounts(
    critical: Int64,
    high: Int64,
    medium: Int64,
    low: Int64,
    informational: Int64,
    undefined: Int64)

  /** The `detail` object of the scan-completed event. */
  datatype ScanDetail = ScanDetail(
    scanStatus: string,
    repositoryName: string,
    findingSeverityCounts: FindingSeverityCounts,
    imageDigest: string,
    imageTags: seq<string>)

  /** How one invocation of the handler ends. */
  datatype LambdaOutcome =
    | Responded(statusCode: int, body: string)
    | Fatal(err: DeliveryError)  // log.Fatal: the process exits
    | IndexOutOfRange        // the runtime panic of ImageTags[0] on an empty tag list

  // ---------------------------------------------------------------------------
  // Message construction

  /** SendSlackNotification's message: plain text, no attachment. */
  function SimpleMessage(sc: SlackClient, sr: SimpleSlackRequest): (m: SlackMessage)
    ensures m.attachments == []
    ensures m.text == sr.text && m.iconEmoji == sr.iconEmoji
    ensures m.username == sc.userName && m.channel == sc.channel
  {
    SlackMessage(sc.userName, sr.iconEmoji, sc.channel, sr.text, [])
  }

  /**
   * SendJobNotification's message: exactly one attachment carrying the job's
   * colour, details, title and link, stamped with the time it was built.
   */
  function JobMessage(sc: SlackClient, job: SlackJobNotification, now: Int64): (m: SlackMessage)
    ensures m.username == sc.userName && m.channel == sc.channel
    ensures m.text == job.text && m.iconEmoji == job.iconEmoji
    ensures |m.attachments| == 1
    ensures m.attachments[0].color == job.color && m.attachments[0].text == job.details
    ensures m.attachments[0].title == job.title && m.attachments[0].titleLink == job.titleLink
    ensures ParseInt(m.attachments[0].ts) == Some(now)
  {
    FormatIntRoundTrip(now);
    var attachment := Attachment(job.color, job.details, FormatInt(now), job.title, job.titleLink);
    SlackMessage(sc.userName, job.iconEmoji, sc.channel, job.text, [attachment])
  }

  // ---------------------------------------------------------------------------
  // Delivery

  /**
   * A JSON POST to the client's webhook, with the client's timeout or, when
   * that is zero, the default.
   */
  predicate IsWebhookPost(req: HttpRequest, sc: SlackClient) {
    && req.httpMethod == MethodPost && req.contentType == ContentTypeJson
    && req.url == sc.webHookUrl
    && req.timeOut == (if sc.timeOut == 0 then DefaultSlackTimeout else sc.timeOut)
  }

  /**
   * The error sendHttpRequest reports for the way the exchange ended: one per
   * failure stage, `NonOkResponse` for any body but "ok", and none for "ok".
   */
  function DeliveryResult(reply: HttpReply): (err: Option<DeliveryError>)
    ensures err.None? <==> reply == Replied(AckBody)
  {
    match reply
    case RequestRejected(reason) => Some(RequestError(reason))
    case TransportFailed(reason) => Some(TransportError(reason))
    case ReadFailed(reason) => Some(ReadError(reason))
    case Replied(body) => if body == AckBody then None else Some(NonOkResponse)
  }

  /**
   * sendHttpRequest: POST the message to the webhook with a zero timeout
   * replaced by the default, and accept only the reply body "ok".
   */
  method SendHttpRequest(sc: SlackClient, slackRequest: SlackMessage, reply: HttpReply)
    returns (sent: Option<HttpRequest>, err: Option<DeliveryError>)
    ensures sent.None? <==> reply.RequestRejected?
    ensures sent.Some? ==>
      && sent.value.httpMethod == MethodPost && sent.value.contentType == ContentTypeJson
      && sent.value.url == sc.webHookUrl && sent.value.body == slackRequest
      && sent.value.timeOut == (if sc.timeOut == 0 then DefaultSlackTimeout else sc.timeOut)
    ensures err.None? <==> reply == Replied(AckBody)
    ensures reply.RequestRejected? ==> err == Some(RequestError(reply.reason))
    ensures reply.TransportFailed? ==> err == Some(TransportError(reply.reason))
    ensures reply.ReadFailed? ==> err == Some(ReadError(reply.reason))
    ensures reply.Replied? && reply.body != AckBody ==> err == Some(NonOkResponse)
    ensures err == DeliveryResult(reply)
  {
    if reply.RequestRejected? {
      return None, Some(RequestError(reply.reason));
    }
    var timeOut := sc.timeOut;
    if timeOut == 0 {
      timeOut := DefaultSlackTimeout;
    }
    sent := Some(HttpRequest(MethodPost, sc.webHookUrl, ContentTypeJson, timeOut, slackRequest));
    match reply {
      case TransportFailed(reason) => err := Some(TransportError(reason));
      case ReadFailed(reason) => err := Some(ReadError(reason));
      case Replied(body) =>
        if body != AckBody {
          err := Some(NonOkResponse);
        } else {
          err := None;
        }
    }
  }

  /** SendSlackNotification: post a plain-text message. */
  method SendSlackNotification(sc: SlackClient, sr: SimpleSlackRequest, reply: HttpReply)
    returns (sent: Option<HttpRequest>, err: Option<DeliveryError>)
    ensures sent.None? <==> reply.RequestRejected?
    ensures sent.Some? ==> IsWebhookPost(sent.value, sc)
    ensures sent.Some? ==> sent.value.body == SimpleMessage(sc, sr) && sent.value.body.attachments == []
    ensures err.None? <==> reply == Replied(AckBody)
    ensures err == DeliveryResult(reply)
  {
    sent, err := SendHttpRequest(sc, SimpleMessage(sc, sr), reply);
  }

  /** SendJobNotification: post a message with the job as its single attachment. */
  method SendJobNotification(sc: SlackClient, job: SlackJobNotification, now: Int64, reply: HttpReply)
    returns (sent: Option<HttpRequest>, err: Option<DeliveryError>)
    ensures sent.None? <==> reply.RequestRejected?
    ensures sent.Some? ==> IsWebhookPost(sent.value, sc) && sent.value.body == JobMessage(sc, job, now)
    ensures err.None? <==> reply == Replied(AckBody)
    ensures err == DeliveryResult(reply)
  {
    sent, err := SendHttpRequest(sc, JobMessage(sc, job, now), reply);
  }

  /**
   * funcName: send `message` as the details of a job notification in
   * `color`, with the first option as the emoji when one is given.
   */
  method FuncName(sc: SlackClient, color: string, message: string, options: seq<string>, now: Int64, reply: HttpReply)
    returns (sent: Option<HttpRequest>, err: Option<DeliveryError>)
    ensures sent.None? <==> reply.RequestRejected?
    ensures sent.Some? ==> IsWebhookPost(sent.value, sc)
    ensures sent.Some? ==>
      var m := sent.value.body;
      && m.iconEmoji == (if |options| > 0 then options[0] else DefaultEmoji)
      && m.text == "" && m.username == sc.userName && m.channel == sc.channel
      && |m.attachments| == 1
      && m.attachments[0].color == color && m.attachments[0].text == message
      && m.attachments[0].title == "" && m.attachments[0].titleLink == ""
      && ParseInt(m.attachments[0].ts) == Some(now)
    ensures sent.Some? ==>
      sent.value.body == JobMessage(sc, SlackJobNotification(color, if |options| > 0 then options[0] else DefaultEmoji, message, "", "", ""), now)
    ensures err.None? <==> reply == Replied(AckBody)
    ensures err == DeliveryResult(reply)
  {
    var emoji := DefaultEmoji;
    if |options| > 0 {
      emoji := options[0];
    }
    var sjn := SlackJobNotification(color, emoji, message, "", "", "");
    sent, err := SendJobNotification(sc, sjn, now, reply);
  }

  /** SendError: a "danger" notification. */
  method SendError(sc: SlackClient, message: string, options: seq<string>, now: Int64, reply: HttpReply)
    returns (sent: Option<HttpRequest>, err: Option<DeliveryError>)
    ensures sent.None? <==> reply.RequestRejected?
    ensures sent.Some? ==> IsWebhookPost(sent.value, sc)
    ensures sent.Some? ==>
      sent.value.body == JobMessage(sc, SlackJobNotification("danger", if |options| > 0 then options[0] else DefaultEmoji, message, "", "", ""), now)
    ensures err.None? <==> reply == Replied(AckBody)
    ensures err == DeliveryResult(reply)
  {
    sent, err := FuncName(sc, "danger", message, options, now, reply);
  }

  /** SendInfo: a "good" notification. */
  method SendInfo(sc: SlackClient, message: string, options: seq<string>, now: Int64, reply: HttpReply)
    returns (sent: Option<HttpRequest>, err: Option<DeliveryError>)
    ensures sent.None? <==> reply.RequestRejected?
    ensures sent.Some? ==> IsWebhookPost(sent.value, sc)
    ensures sent.Some? ==>
      sent.value.body == JobMessage(sc, SlackJobNotification("good", if |options| > 0 then options[0] else DefaultEmoji, message, "", "", ""), now)
    ensures err.None? <==> reply == Replied(AckBody)
    ensures err == DeliveryResult(reply)
  {
    sent, err := FuncName(sc, "good", message, options, now, reply);
  }

  /** SendWarning: a "warning" notification. */
  method SendWarning(sc: SlackClient, message: string, options: seq<string>, now: Int64, reply: HttpReply)
    returns (sent: Option<HttpRequest>, err: Option<DeliveryError>)
    ensures sent.None? <==> reply.RequestRejected?
    ensures sent.Some? ==> IsWebhookPost(sent.value, sc)
    ensures sent.Some? ==>
      sent.value.body == JobMessage(sc, SlackJobNotification("warning", if |options| > 0 then options[0] else DefaultEmoji, message, "", "", ""), now)
    ensures err.None? <==> reply == Replied(AckBody)
    ensures err == DeliveryResult(reply)
  {
    sent, err := FuncName(sc, "warning", message, options, now, reply);
  }

  // ---------------------------------------------------------------------------
  // Formatting a scan event

  /**
   * The attachment colour for the critical, high and medium counts. It is
   * one of "good", "danger" and "warning" whenever the counts are
   * non-negative; a negative count with no positive high or critical count
   * matches none of the three branches and leaves the colour empty.
   */
  function SeverityColor(c: Int64, h: Int64, m: Int64): (color: string)
    ensures color == "good" <==> c == 0 && h == 0 && m == 0
    ensures color == "danger" <==> h > 0 || c > 0
    ensures color == "warning" <==> c == 0 && h == 0 && m > 0
    ensures color == "" <==> h <= 0 && c <= 0 && (h < 0 || c < 0 || m < 0)
    ensures c >= 0 && h >= 0 && m >= 0 ==> color in {"good", "danger", "warning"}
  {
    if h == 0 && m == 0 && c == 0 then "good"
    else if h > 0 || c > 0 then "danger"
    else if c == 0 && h == 0 && m > 0 then "warning"
    else ""
  }

  /** The six counters, in the order the detail text lists them. */
  function Counters(counts: FindingSeverityCounts): seq<Int64> {
    [counts.critical, counts.high, counts.medium, counts.low, counts.informational, counts.undefined]
  }

  /** The label in front of each counter, exactly as the handler writes it. */
  const SeverityLabels: seq<string> := ["CRITICAL: ", "HIGH: ", "MEDIUM:", "LOW:", "INFORMATIONAL", "UNDEFINED:"]

  /** One line of the detail text: a label and the decimal counter after it. */
  function Row(heading: string, x: Int64): string {
    heading + FormatInt(x)
  }

  /** A row has no newline when its label has none. */
  lemma RowIsOneLine(heading: string, x: Int64)
    requires '\n' !in heading
    ensures '\n' !in Row(heading, x)
  {
  }

  /** The six lines of the detail text, each a label and its counter. */
  function DetailRows(counts: FindingSeverityCounts): seq<string> {
    seq(6, k requires 0 <= k < 6 => Row(SeverityLabels[k], Counters(counts)[k]))
  }

  /** No detail row contains a newline. */
  lemma DetailRowsAreLines(counts: FindingSeverityCounts)
    ensures |DetailRows(counts)| == 6
    ensures forall k :: 0 <= k < |DetailRows(counts)| ==> '\n' !in DetailRows(counts)[k]
  {
    forall k | 0 <= k < 6 ensures '\n' !in DetailRows(counts)[k] {
      RowIsOneLine(SeverityLabels[k], Counters(counts)[k]);
    }
  }

  /**
   * The attachment text: the six labelled counters joined by newlines. It
   * splits on newlines into exactly those rows, in their fixed order.
   */
  function Detail(counts: FindingSeverityCounts): (d: string)
    ensures SplitLines(d) == DetailRows(counts)
  {
    DetailRowsAreLines(counts);
    SplitJoinLines(DetailRows(counts));
    JoinLines(DetailRows(counts))
  }

  /**
   * Line k of the detail text is the k-th label followed by the decimal
   * rendering of the k-th counter, which reads back as that counter.
   */
  lemma DetailLine(counts: FindingSeverityCounts, k: nat)
    requires k < 6
    ensures |SplitLines(Detail(counts))| == 6
    ensures SplitLines(Detail(counts))[k] == Row(SeverityLabels[k], Counters(counts)[k])
    ensures ParseInt(SplitLines(Detail(counts))[k][|SeverityLabels[k]|..]) == Some(Counters(counts)[k] as int)
  {
    RowReadsBack(SeverityLabels[k], Counters(counts)[k]);
  }

  /** The six rows are separated by exactly five newlines. */
  lemma DetailNewlines(counts: FindingSeverityCounts)
    ensures multiset(Detail(counts))['\n'] == 5
  {
    SplitLinesCount(Detail(counts));
  }

  /** The text after a row's label is its counter, and reads back as it. */
  lemma RowReadsBack(heading: string, x: Int64)
    ensures Row(heading, x)[|heading|..] == FormatInt(x)
    ensures ParseInt(Row(heading, x)[|heading|..]) == Some(x as int)
  {
    assert Row(heading, x)[|heading|..] == FormatInt(x);
    FormatIntRoundTrip(x);
  }

  /** Splits a title at its first colon. */
  function SplitTitle(title: string): Option<(string, string)> {
    match IndexOf(title, ':')
    case None => None
    case Some(i) => Some((title[..i], title[i + 1..]))
  }

  /**
   * The attachment title: repository and tag. A repository name without a
   * colon (as ECR requires) is recovered from it, and so is the tag.
   */
  function ImageTitle(repositoryName: string, tag: string): (t: string)
    ensures ':' !in repositoryName ==> SplitTitle(t) == Some((repositoryName, tag))
  {
    var t := repositoryName + ":" + tag;
    assert t == repositoryName + [':'] + tag;
    assert t[..|repositoryName|] == repositoryName;
    assert t[|repositoryName| + 1..] == tag;
    IndexOfAfter(repositoryName, ':', tag);
    t
  }

  /** Splits the middle of a link at its last slash, which must end the "/image/" segment. */
  function SplitAtImageSegment(middle: string): Option<(string, string)> {
    match LastIndexOf(middle, '/')
    case None => None
    case Some(i) =>
      if i + 1 < |ImageSegment| || middle[i + 1 - |ImageSegment|..i + 1] != ImageSegment then None
      else Some((middle[..i + 1 - |ImageSegment|], middle[i + 1..]))
  }

  /**
   * Reads a scan-results link back: the digest is the last path segment
   * before the fixed suffix, the repository everything between the console
   * prefix and the "/image/" segment before it.
   */
  function ParseScanResultsLink(link: string): Option<(string, string)> {
    match Between(link, ConsolePrefix, ScanResultsSuffix)
    case None => None
    case Some(middle) => SplitAtImageSegment(middle)
  }

  /** A digest without a slash is split off after the "/image/" segment, whatever the repository. */
  lemma SplitAtImageSegmentOf(repositoryName: string, imageDigest: string)
    ensures '/' !in imageDigest ==>
      SplitAtImageSegment(repositoryName + ImageSegment + imageDigest) == Some((repositoryName, imageDigest))
  {
    if '/' !in imageDigest {
      var middle := repositoryName + ImageSegment + imageDigest;
      var front := repositoryName + "/image";
      assert middle == front + ['/'] + imageDigest;
      LastIndexOfBefore(front, '/', imageDigest);
      var i := |front|;
      assert middle[i + 1 - |ImageSegment|..i + 1] == ImageSegment;
      assert middle[..i + 1 - |ImageSegment|] == repositoryName;
      assert middle[i + 1..] == imageDigest;
    }
  }

  /**
   * The deep link into the console's scan results for one image. An image
   * digest has no slash, so the repository (slashes allowed) and the digest
   * are recovered from the link.
   */
  function ScanResultsLink(repositoryName: string, imageDigest: string): (link: string)
    ensures '/' !in imageDigest ==> ParseScanResultsLink(link) == Some((repositoryName, imageDigest))
  {
    var middle := repositoryName + ImageSegment + imageDigest;
    var link := ConsolePrefix + repositoryName + ImageSegment + imageDigest + ScanResultsSuffix;
    assert link == ConsolePrefix + middle + ScanResultsSuffix;
    BetweenOf(ConsolePrefix, middle, ScanResultsSuffix);
    SplitAtImageSegmentOf(repositoryName, imageDigest);
    link
  }

  /**
   * HandleRequest: build the client from the decrypted settings, format the
   * scan event as a job notification and send it; a failed send ends the
   * process, and an event without image tags panics before anything is sent.
   */
  method HandleRequest(webHookUrl: string, userName: string, channel: string, detail: ScanDetail, now: Int64, reply: HttpReply)
    returns (sent: Option<HttpRequest>, outcome: LambdaOutcome)
    ensures |detail.imageTags| == 0 ==> sent.None? && outcome == IndexOutOfRange
    ensures |detail.imageTags| > 0 ==> (sent.None? <==> reply.RequestRejected?)
    ensures outcome == Responded(200, "OK") <==> |detail.imageTags| > 0 && reply == Replied(AckBody)
    ensures outcome.Fatal? <==> |detail.imageTags| > 0 && reply != Replied(AckBody)
    ensures outcome.Fatal? ==> DeliveryResult(reply) == Some(outcome.err)
    ensures sent.Some? ==>
      var counts := detail.findingSeverityCounts;
      var m := sent.value.body;
      && |detail.imageTags| > 0
      && sent.value.httpMethod == MethodPost && sent.value.contentType == ContentTypeJson
      && sent.value.url == webHookUrl && sent.value.timeOut == DefaultSlackTimeout
      && m.username == userName && m.channel == channel
      && m.iconEmoji == DefaultEmoji && m.text == ScanFindingsText
      && |m.attachments| == 1
      && m.attachments[0].color == SeverityColor(counts.critical, counts.high, counts.medium)
      && m.attachments[0].text == Detail(counts)
      && m.attachments[0].title == ImageTitle(detail.repositoryName, detail.imageTags[0])
      && m.attachments[0].titleLink == ScanResultsLink(detail.repositoryName, detail.imageDigest)
      && ParseInt(m.attachments[0].ts) == Some(now)
  {
    var sc := SlackClient(webHookUrl, userName, channel, 0);
    var c := detail.findingSeverityCounts.critical;
    var h := detail.findingSeverityCounts.high;
    var m := detail.findingSeverityCounts.medium;
    var details := Detail(detail.findingSeverityCounts);

    var color := "";
    if h == 0 && m == 0 && c == 0 {
      color := "good";
    } else if h > 0 || c > 0 {
      color := "danger";
    } else if c == 0 && h == 0 && m > 0 {
      color := "warning";
    }

    if |detail.imageTags| == 0 {
      return None, IndexOutOfRange;
    }
    var title := ImageTitle(detail.repositoryName, detail.imageTags[0]);
    var link := ScanResultsLink(detail.repositoryName, detail.imageDigest);
    var sr := SlackJobNotification(color, DefaultEmoji, details, ScanFindingsText, title, link);

    var err;
    sent, err := SendJobNotification(sc, sr, now, reply);
    if err.Some? {
      outcome := Fatal(err.value);
    } else {
      outcome := Responded(200, "OK");
    }
  }
}
