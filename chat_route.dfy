/** The mock completion endpoint, `POST /api/chat` (app/api/chat/route.ts).

    The handler's two `Math.random()` draws are parameters (`pick` and `spend`, each in
    [0, 1)), and `${x}` of a number is the caller-supplied rendering `show`. The artificial
    delay is left out. What remains is a function of the request body and the draws. */
module ChatRoute {
  import opened Types
  import Text

  /** A field of the body as JSON delivers it: absent, `null`, a string, or any other value.
      Another value carries what `${}` makes of it: `Some` of its text (digits for a number,
      `true` or `false`, and so on), or `None` when the conversion throws, as it does for an
      object whose `toString` member is not a function. */
  datatype JsonField = Absent | Null | Str(text: string) | OtherValue(rendering: Option<string>)

  /** The parsed request body. `Unparsable` is a body `request.json()` rejects or the body
      `null`. A `message` that is not a string is `None`, as is an absent or null
      `parameters`; `model` is whatever the body holds under that key. */
  datatype RequestBody =
    | Unparsable
    | Json(message: Option<string>, model: JsonField, parameters: Option<ChatParameters>)

  /** The two envelopes: `{success: true, data: {content, model, tokensUsed}}` (status 200)
      and `{success: false, error}` with an error status. The echoed `model` is the body's
      field as it was; an absent one is omitted from the JSON. */
  datatype ChatResponse =
    | Answered(content: string, model: JsonField, tokensUsed: int)
    | Failed(error: string, status: int)

  const ErrorText := "Failed to process chat request"

  /** How many canned replies there are. */
  const ReplyCount := 5

  /** `Math.floor(u * n)` for a draw `u` in [0, 1): an index in [0, n). */
  function Draw(u: real, n: nat): (k: int)
    requires 0.0 <= u < 1.0 && n > 0
    ensures 0 <= k < n
  {
    var x := u * n as real;
    assert 0.0 <= x < n as real by {
      assert u * n as real < 1.0 * n as real;
    }
    x.Floor
  }

  /** `${model}`: the string itself, `undefined` when absent, `null` for null, and the
      rendering of any other value; `None` when rendering that value throws. */
  function ModelText(model: JsonField): (t: Option<string>)
    ensures t.None? <==> model.OtherValue? && model.rendering.None?
    ensures model.Str? ==> t == Some(model.text)
    ensures model.Absent? ==> t == Some("undefined")
    ensures model.Null? ==> t == Some("null")
  {
    match model
    case Absent => Some("undefined")
    case Null => Some("null")
    case Str(text) => Some(text)
    case OtherValue(rendering) => rendering
  }

  /** `mockResponses`: the five canned replies, each built from the message, the model and
      the parameters. */
  function MockResponses(message: string, model: string, p: ChatParameters, show: real -> string): (rs: seq<string>)
    ensures |rs| == ReplyCount
  {
    seq(ReplyCount, k requires 0 <= k < ReplyCount => Reply(k, message, model, p, show))
  }

  /** How many leading characters of the message reply `k` quotes; reply 3 quotes none. */
  function ExcerptLength(k: nat): nat
    requires k < ReplyCount
  {
    match k
    case 0 => 50
    case 1 => 30
    case 2 => 40
    case 3 => 0
    case 4 => 35
  }

  /** The fixed text of reply `k` before its excerpt. */
  function Opening(k: nat): (o: string)
    requires k < ReplyCount
  {
    match k
    case 0 => "Based on your input regarding \""
    case 1 => "That's an interesting question! Let me break this down for you: "
    case 2 => "I understand you're asking about: \""
    case 3 => ""
    case 4 => "Thank you for that input. Let me process your request about \""
  }

  /** The text of reply `k` after its excerpt, built from the model and the parameters. */
  function Closing(k: nat, model: string, p: ChatParameters, show: real -> string): string
    requires k < ReplyCount
  {
    match k
    case 0 =>
      "...\", I can provide a comprehensive analysis. " +
      "This is a simulated response from " + model + "."
    case 1 => "... requires careful consideration of multiple factors."
    case 2 =>
      "...\". Here's what I think based on the parameters you've set " +
      "(temperature: " + show(p.temperature) + ", max tokens: " + show(p.maxTokens) + ")."
    case 3 =>
      "Great question! From the perspective of " + model + ", " +
      "here's my analysis of your query..."
    case 4 => "...\" and provide a detailed response."
  }

  /** Entry `k` of `mockResponses`: its opening, the excerpt of the message it quotes, and
      its closing. The reply starts with the opening, the excerpt sits right after it, and it is a prefix of the
      message of at most `ExcerptLength(k)` characters. */
  function Reply(k: nat, message: string, model: string, p: ChatParameters, show: real -> string): (r: string)
    requires k < ReplyCount
    ensures |Opening(k)| + |Text.Prefix(message, ExcerptLength(k))| <= |r|
    ensures r[..|Opening(k)|] == Opening(k)
    ensures r[|Opening(k)|..|Opening(k)| + |Text.Prefix(message, ExcerptLength(k))|] <= message
  {
    Quote(Opening(k), Text.Prefix(message, ExcerptLength(k)), Closing(k, model, p, show))
  }

  /** `a + b + c`, which starts with `a` and has `b` right after it. */
  function Quote(a: string, b: string, c: string): (r: string)
    ensures |a| + |b| <= |r|
    ensures r[..|a|] == a
    ensures r[|a|..|a| + |b|] == b
  {
    assert (a + b + c)[..|a|] == a;
    assert (a + b + c)[|a|..|a| + |b|] == b;
    a + b + c
  }

  /** Each reply depends on the message only through the excerpt it quotes: two messages
      with the same excerpt get the same reply, and reply 3 is the same for every message. */
  lemma ReplyDependsOnlyOnExcerpt(k: nat, m1: string, m2: string, model: string, p: ChatParameters, show: real -> string)
    requires k < ReplyCount
    requires Text.Prefix(m1, ExcerptLength(k)) == Text.Prefix(m2, ExcerptLength(k))
    ensures Reply(k, m1, model, p, show) == Reply(k, m2, model, p, show)
  {
  }

  /** The handler. A body without a string message, without parameters, or with a model
      that cannot be rendered as text makes building the replies throw, whatever reply is
      drawn, and the catch answers with the fixed error; otherwise the answer is one of the five replies, echoes the model and reports between
      100 and 599 tokens. */
  function Post(body: RequestBody, pick: real, spend: real, show: real -> string): (r: ChatResponse)
    requires 0.0 <= pick < 1.0 && 0.0 <= spend < 1.0
    ensures r.Answered? <==>
              body.Json? && body.message.Some? && body.parameters.Some? && ModelText(body.model).Some?
    ensures r.Answered? ==>
              r.model == body.model &&
              r.content in MockResponses(body.message.value, ModelText(body.model).value, body.parameters.value, show) &&
              100 <= r.tokensUsed <= 599
    ensures r.Failed? ==> r.error == ErrorText && r.status == 500
  {
    match body
    case Unparsable => Failed(ErrorText, 500)
    case Json(message, model, parameters) =>
      if message.None? || parameters.None? || ModelText(model).None? then Failed(ErrorText, 500)
      else
        var replies := MockResponses(message.value, ModelText(model).value, parameters.value, show);
        Answered(replies[Draw(pick, |replies|)], model, Draw(spend, 500) + 100)
  }

  /** Whether a request fails does not depend on the draws, and a failure is the same
      envelope whatever was drawn. */
  lemma FailureIgnoresDraws(body: RequestBody, pick: real, spend: real, pick': real, spend': real, show: real -> string)
    requires 0.0 <= pick < 1.0 && 0.0 <= spend < 1.0
    requires 0.0 <= pick' < 1.0 && 0.0 <= spend' < 1.0
    ensures Post(body, pick, spend, show).Failed? == Post(body, pick', spend', show).Failed?
    ensures Post(body, pick, spend, show).Failed? ==>
              Post(body, pick, spend, show) == Post(body, pick', spend', show)
  {
  }

  /** Every one of the five replies can be drawn. */
  lemma EveryReplyReachable(message: string, model: JsonField, p: ChatParameters, show: real -> string, k: nat)
    requires k < ReplyCount && ModelText(model).Some?
    ensures Post(Json(Some(message), model, Some(p)), k as real / ReplyCount as real, 0.0, show).content ==
            MockResponses(message, ModelText(model).value, p, show)[k]
  {
    DrawHits(k, ReplyCount);
    assert |MockResponses(message, ModelText(model).value, p, show)| == ReplyCount;
  }

  /** The draw `k / n` picks index `k`. */
  lemma DrawHits(k: nat, n: nat)
    requires k < n
    ensures Draw(k as real / n as real, n) == k
  {
    assert (k as real / n as real) * n as real == k as real;
  }
}
