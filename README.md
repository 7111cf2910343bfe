# ECR scan trigger and scan-finding Slack notifier, in Dafny

This project models two AWS Lambda handlers that work with Amazon ECR image
vulnerability scans, and proves properties of the model.

- **Slack notifier** (`slack_send.dfy`, module `SlackSend`). It takes the severity
  counts of a finished image scan and picks an attachment colour: `good`,
  `danger` or `warning`. It writes a six-line detail text, a `repo:tag` title and
  a deep link to the console's scan results. It builds a Slack message with
  exactly one attachment and POSTs it to an incoming webhook. A zero client
  timeout becomes 5 seconds. Delivery succeeds only if the reply body is the
  literal `ok`. The generic helpers `SendError`, `SendInfo` and `SendWarning`
  send a message in a fixed colour. They take the first option as the emoji and
  default to `:hammer_and_wrench` when no option is given.
- **Scan trigger** (`ecr_scan.dfy`, module `EcrScan`). It lists the registry's
  repositories, keeping their order. For each repository it picks the image with
  the strictly latest push time, so on a tie the first image wins. It then starts
  one scan per repository, with the digest, tag, registry and repository of that
  image. The tag is the last tag of the chosen image. The tag variable is never
  reset, so an untagged winner keeps the tag of an earlier chosen image.
- Support modules: `Decimal` (`decimal.dfy`) holds Go's `int64` and
  `strconv.FormatInt(x, 10)`, with a reader that inverts it. `Strings`
  (`strings.dfy`) splits lines and finds characters. `Wrappers` (`wrappers.dfy`)
  holds `Option`.

Go's value-receiver `SlackClient` is a datatype. The `sc.TimeOut = DefaultSlackTimeout`
assignment in `sendHttpRequest` changes only the method's own copy, so it
becomes a local variable of `SendHttpRequest`. The loops of `AWSDescribeImage`,
`AwsListRepo` and `HandleLambda` are `while` loops in methods. Each method is
proved against a specification function:

- `Latest` is "the first image with the maximum push time after the zero time".
- `SelectedTag` is "the last tag of the last image that set a new maximum and has tags".
- `ScanInput` is the scan request built from the four selected values.

The if/else colour chain of `HandleRequest` stays as assignments in that method,
and its `ensures` ties the colour to the function `SeverityColor`.

Facts about the code that the model keeps:

- The colours are `good`, `danger` and `warning`.
- The detail labels are `CRITICAL: `, `HIGH: `, `MEDIUM:`, `LOW:`, `INFORMATIONAL`
  (no colon) and `UNDEFINED:`, each followed directly by the counter.
- The region in the link is the fixed string `ap-southeast-1`.
- An event with an empty tag list panics at `ImageTags[0]`. This is modelled as
  the outcome `IndexOutOfRange`.

## Model

| member | source | states |
|---|---|---|
| `SlackSend.SeverityColor` | slack_send/cmd/slack_send/main.go:284-291 | `good` exactly when critical, high and medium are all zero. `danger` exactly when high or critical is positive, whatever medium is. `warning` exactly when critical and high are zero and medium is positive. For non-negative counts it is one of those three. It is `""` exactly when high and critical are not positive and one of the three counts is negative. |
| `SlackSend.HandleRequest` | slack_send/cmd/slack_send/main.go:250-311 | Empty tag list: nothing is sent and the handler panics. Otherwise one message is sent unless the request cannot be created. It is a POST of `application/json` to the webhook URL with the 5 s default timeout. It carries the user name, the channel, the default emoji, the fixed text, and one attachment. The attachment has colour `SeverityColor(c,h,m)`, text `Detail(counts)`, title `ImageTitle(repo, tags[0])`, link `ScanResultsLink(repo, digest)`, and a timestamp that reads back as the sending time. The handler answers 200 `OK` exactly when the reply is `ok`. Otherwise it ends fatally with the error `DeliveryResult` gives for the reply. |
| `SlackSend.Detail` | slack_send/cmd/slack_send/main.go:277-282 | Splitting the detail text on newlines gives exactly the six labelled rows, in the fixed order CRITICAL, HIGH, MEDIUM, LOW, INFORMATIONAL, UNDEFINED. |
| `SlackSend.DetailLine` | slack_send/cmd/slack_send/main.go:277-282 | Line k is the k-th label of CRITICAL, HIGH, MEDIUM, LOW, INFORMATIONAL, UNDEFINED, followed by the decimal counter. The text after the label reads back as that counter. |
| `SlackSend.DetailRowsAreLines` | slack_send/cmd/slack_send/main.go:277-282 | There are six rows and none contains a newline, whatever the counts. |
| `SlackSend.DetailNewlines` | slack_send/cmd/slack_send/main.go:277-282 | The detail text holds exactly five newlines, one between each pair of rows. |
| `SlackSend.ImageTitle` | slack_send/cmd/slack_send/main.go:299 | For a repository name without `:`, splitting the title at its first colon gives back the repository name and the tag. |
| `SlackSend.ScanResultsLink` | slack_send/cmd/slack_send/main.go:300 | For a digest without `/`, parsing the link gives back the repository and the digest. Parsing requires the fixed console prefix, then `/image/` before the last slash, and the fixed `/scan-results/?region=ap-southeast-1` suffix. |
| `SlackSend.SimpleMessage` | slack_send/cmd/slack_send/main.go:87-95 | The plain message has no attachments. It carries the request's text and emoji and the client's user name and channel. |
| `SlackSend.JobMessage` | slack_send/cmd/slack_send/main.go:97-111 | The job message has exactly one attachment, with the job's colour, its details as text, its title and its title link. Username and channel come from the client, and text and emoji from the job. The timestamp reads back as the sending time. |
| `SlackSend.DeliveryResult` | slack_send/cmd/slack_send/main.go:139-164 | No error exactly when the reply body is `ok`. Each failure stage has its own error. |
| `SlackSend.SendHttpRequest` | slack_send/cmd/slack_send/main.go:139-164 | A request goes out unless the request could not be created. The request is a POST of `application/json` to the webhook URL with the message. Its timeout is the client's timeout, or 5 s when that is zero. It succeeds exactly when the reply body is `ok`. Each failure stage maps to its own error, and a body other than `ok` gives `NonOkResponse`. That error is exactly `DeliveryResult(reply)`. |
| `SlackSend.SendSlackNotification` | slack_send/cmd/slack_send/main.go:87-95 | Posts the plain message, which has no attachments, as `application/json` to the client's webhook URL. The timeout is the client's, or 5 s when that is zero. The error is the one `sendHttpRequest` reports (`DeliveryResult(reply)`), so it succeeds exactly when the reply is `ok`. |
| `SlackSend.SendJobNotification` | slack_send/cmd/slack_send/main.go:97-113 | Posts the one-attachment job message as `application/json` to the client's webhook URL, with the client's timeout or 5 s when that is zero. The error is passed on unchanged (`DeliveryResult(reply)`). |
| `SlackSend.FuncName` | slack_send/cmd/slack_send/main.go:127-138 | The request is a JSON POST to the webhook URL with the defaulted timeout. Its body is exactly the job message for colour, emoji, message and empty text, title and link. The emoji is `options[0]` when options are given and `:hammer_and_wrench` otherwise. The timestamp reads back as the sending time. The error is passed on unchanged (`DeliveryResult(reply)`). |
| `SlackSend.SendError` | slack_send/cmd/slack_send/main.go:115-117 | A JSON POST to the webhook URL. Its body is exactly the job message `FuncName` builds with colour `danger`: the client's user name and channel, the defaulted emoji, the message as attachment text, empty text, title and link, and the sending time. The error is passed on unchanged (`DeliveryResult(reply)`). |
| `SlackSend.SendInfo` | slack_send/cmd/slack_send/main.go:119-121 | A JSON POST to the webhook URL. Its body is exactly the job message `FuncName` builds with colour `good`: the client's user name and channel, the defaulted emoji, the message as attachment text, empty text, title and link, and the sending time. The error is passed on unchanged (`DeliveryResult(reply)`). |
| `SlackSend.SendWarning` | slack_send/cmd/slack_send/main.go:123-125 | A JSON POST to the webhook URL. Its body is exactly the job message `FuncName` builds with colour `warning`: the client's user name and channel, the defaulted emoji, the message as attachment text, empty text, title and link, and the sending time. The error is passed on unchanged (`DeliveryResult(reply)`). |
| `Decimal.FormatInt` | slack_send/cmd/slack_send/main.go:277-282 | The counter's text is non-empty. It starts with `-` exactly for negative values, and the rest is decimal digits, so it has no newline. It is canonical: a leading `0` only in `"0"`, and a negative value has no `0` after the sign. |
| `Decimal.FormatIntRoundTrip` | slack_send/cmd/slack_send/main.go:101 | Reading back the decimal rendering of any integer gives that integer. This is how the timestamp and the counters are recovered. |
| `EcrScan.AwsListRepo` | ecr_scan/cmd/main.go:100-106 | The result has one name per listed repository, in the same order. |
| `EcrScan.MaxPushedAt` | ecr_scan/cmd/main.go:133-149 | The latest push time of all images, or the zero time if no image is later. It is one of the push times, or the zero time. |
| `EcrScan.Latest` | ecr_scan/cmd/main.go:133-151 | None exactly when no image is pushed after the zero time. Otherwise it picks an image after the zero time whose push time is at least every other image's. Every earlier image is strictly older, so ties go to the first occurrence (the comparison is a strict `After`). |
| `EcrScan.SelectedFields` | ecr_scan/cmd/main.go:133-151 | With no image later than the zero time, all four results are `""`. Otherwise digest, registry ID and repository name all come from the chosen image record. |
| `EcrScan.SelectedTag` | ecr_scan/cmd/main.go:139-143 | The tag is `""` or the last tag of an image that took over the choice. |
| `EcrScan.AWSDescribeImage` | ecr_scan/cmd/main.go:109-152 | The nested loops return exactly `Selected(imageDetails)`: digest, tag, registry ID and repository. |
| `EcrScan.SelectedStep` | ecr_scan/cmd/main.go:139-149 | One more image changes the selection only if it is strictly later than the maximum so far. It then brings its digest, registry and repository, and its last tag if it has tags. Otherwise the tag stays as it was. |
| `EcrScan.RecordIffAboveMax` | ecr_scan/cmd/main.go:140 | An image takes over the choice exactly when it is later than the zero time and every image before it. |
| `EcrScan.NoTaggedRecordNoTag` | ecr_scan/cmd/main.go:139-143 | If no image that took over the choice has tags (in particular, if no image is later than the zero time), the tag stays `""`. |
| `EcrScan.LastTaggedRecordTag` | ecr_scan/cmd/main.go:139-143 | The tag is the last tag of the last image that took over the choice and has tags. |
| `EcrScan.LatestIsLastRecord` | ecr_scan/cmd/main.go:139-148 | The chosen image took over the choice, and no later image takes it over. |
| `EcrScan.SelectedTagOfPrefix` | ecr_scan/cmd/main.go:141-143 | Images that do not take over the choice never change the tag. |
| `EcrScan.TaggedLatestTag` | ecr_scan/cmd/main.go:141-143 | A chosen image with tags contributes its last tag. |
| `EcrScan.UntaggedLatestInheritsTag` | ecr_scan/cmd/main.go:139-149 | A chosen image with no tags does not reset the tag. The result pairs its digest with the tag selected from the images before it. |
| `EcrScan.UntaggedLatestExample` | ecr_scan/cmd/main.go:139-149 | Take an older image tagged `v1`, then a newer untagged one. The result is the newer digest with tag `v1`. |
| `EcrScan.ScanInput` | ecr_scan/cmd/main.go:32-51 | The scan request names the image by the selected digest and tag, in the selected registry and repository. |
| `EcrScan.HandleLambda` | ecr_scan/cmd/main.go:154-162 | The call log has `2n+1` entries for `n` listed repositories. The first is the `DescribeRepositories` call that `AwsListRepo` makes. For the k-th repository, in list order, call `2k+1` describes its images and call `2k+2` starts a scan with `ScanInput` of the selection from those images. |

## Left out

- `AwsKmsDecrypt`: KMS decryption and base64 decoding of the webhook URL, user name and channel are calls into AWS. The decrypted values are parameters of `HandleRequest`.
- JSON marshalling of the message (`omitempty` fields, the ignored `json.Marshal` error) is library behaviour. The request carries the message value itself.
- The attachment fields the notifier never sets (fallback, callback ID, author fields, images, pretext, `mrkdwn_in`) are left out of `Attachment`.
- `time.Now().Unix()` is the clock, so it is the parameter `now`.
- HTTP transport (`http.NewRequest`, `client.Do`, reading the body) is abstracted as the `HttpReply` the exchange ended with. The model does not tie the reply to the request that was sent. It does not model how the timeout is enforced.
- The AWS SDK calls (`DescribeRepositories`, `DescribeImages`, `StartImageScan`) are inputs or entries in the call log. Their error-code switches only print. The SDK returns an empty output with an error, so a failed call is modelled as an empty result. A repository missing from the registry map has no images. Only the first page of each SDK listing is ever read, so pagination is left out. The printing of the scan result is left out too.
- Nil-pointer panics on missing SDK fields (`*r.RepositoryName`, `*r.ImagePushedAt`, …) are left out. Every record is taken to carry every field.
- `time.Time` is modelled as an integer instant, with the zero time as `ZeroTime`. Only `After` is used on it.
- Event fields other than `detail`, the `ctx` argument, `log.Fatal`'s logging, `lambda.Start`, `main` and the environment-variable globals are left out.
- ecr_scan/main.go is not part of this model. It passes hard-coded values through to the SDK and has no logic of its own.
