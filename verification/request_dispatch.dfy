/** The verb helpers and the path formatter of request_helpers.go: when `doPOSTRequest` and
    `doPUTRequest` attach a body, and how `formatAPIPath` escapes its arguments. The JSON
    encoder, the transport and `fmt.Sprintf` are parameters. */
module RequestDispatch {
  import opened Results

  datatype Verb = Get | Post | Put | Delete

  /** A request as handed to the transport; `body` is the encoded JSON, when one is attached. */
  datatype Request = Request(verb: Verb, endpoint: string, body: Option<string>)

  /** What a helper did: the outcome it returned, and the request it sent, if it sent one. */
  datatype Dispatched<T> = Dispatched(result: Result<T>, sent: Option<Request>)

  /** The guard of lines 128 and 158, as written: more than one option, the first non-nil. */
  predicate AttachesBody<O>(options: seq<Option<O>>)
  {
    |options| > 1 && options[0].Some?
  }

  /** Lines 128-135 (and 158-165): the body is the encoding of the whole `options` slice when
      the guard holds, and no body otherwise; an encoding error is returned as it is. */
  function RequestBody<O>(options: seq<Option<O>>, encode: seq<Option<O>> -> Result<string>): (r: Result<Option<string>>)
    ensures r.Failure? <==> AttachesBody(options) && encode(options).Failure?
    ensures r.Failure? ==> r.error == encode(options).error
    ensures r.Success? ==> (r.value.Some? <==> AttachesBody(options))
    ensures r.Success? && r.value.Some? ==> encode(options) == Success(r.value.value)
  {
    if |options| > 1 && options[0].Some? then
      match encode(options)
      case Failure(e) => Failure(e)
      case Success(body) => Success(Some(body))
    else
      Success(None)
  }

  /** The shared shape of `doPOSTRequest` and `doPUTRequest` (lines 116-143, 146-173): build
      the body, and either fail before sending anything or send exactly one request to
      `endpoint` and return the transport's outcome. */
  function SendWithOptions<O, T>(verb: Verb, endpoint: string, options: seq<Option<O>>,
                                 encode: seq<Option<O>> -> Result<string>,
                                 send: Request -> Result<T>): (d: Dispatched<T>)
    ensures RequestBody(options, encode).Failure? ==>
      d.sent.None? && d.result == Failure(RequestBody(options, encode).error)
    ensures RequestBody(options, encode).Success? ==>
      && d.sent.Some?
      && d.sent.value.verb == verb && d.sent.value.endpoint == endpoint
      && (d.sent.value.body.Some? <==> AttachesBody(options))
      && d.result == send(d.sent.value)
  {
    match RequestBody(options, encode)
    case Failure(e) => Dispatched(Failure(e), None)
    case Success(body) =>
      var request := Request(verb, endpoint, body);
      Dispatched(send(request), Some(request))
  }

  /** `doPOSTRequest` (lines 116-143). */
  function DoPOSTRequest<O, T>(endpoint: string, options: seq<Option<O>>,
                               encode: seq<Option<O>> -> Result<string>,
                               send: Request -> Result<T>): (d: Dispatched<T>)
    ensures d.sent.Some? ==> d.sent.value.verb == Post && d.sent.value.endpoint == endpoint
    ensures d.sent.Some? ==> d.result == send(d.sent.value)
    ensures d.sent.None? <==> AttachesBody(options) && encode(options).Failure?
    ensures d.sent.None? ==> d.result == Failure(encode(options).error)
    ensures d.sent.Some? ==> (d.sent.value.body.Some? <==> AttachesBody(options))
    ensures d.sent.Some? && d.sent.value.body.Some? ==> encode(options) == Success(d.sent.value.body.value)
  {
    SendWithOptions(Post, endpoint, options, encode, send)
  }

  /** `doPUTRequest` (lines 146-173). */
  function DoPUTRequest<O, T>(endpoint: string, options: seq<Option<O>>,
                              encode: seq<Option<O>> -> Result<string>,
                              send: Request -> Result<T>): (d: Dispatched<T>)
    ensures d.sent.Some? ==> d.sent.value.verb == Put && d.sent.value.endpoint == endpoint
    ensures d.sent.Some? ==> d.result == send(d.sent.value)
    ensures d.sent.None? <==> AttachesBody(options) && encode(options).Failure?
    ensures d.sent.None? ==> d.result == Failure(encode(options).error)
    ensures d.sent.Some? ==> (d.sent.value.body.Some? <==> AttachesBody(options))
    ensures d.sent.Some? && d.sent.value.body.Some? ==> encode(options) == Success(d.sent.value.body.value)
  {
    SendWithOptions(Put, endpoint, options, encode, send)
  }

  /** POST and PUT differ in the verb and nothing else. */
  lemma PostAndPutDifferOnlyInVerb<O, T>(endpoint: string, options: seq<Option<O>>,
                                         encode: seq<Option<O>> -> Result<string>,
                                         send: Request -> Result<T>)
    ensures var post := DoPOSTRequest(endpoint, options, encode, send);
      var put := DoPUTRequest(endpoint, options, encode, send);
      && post.sent.Some? == put.sent.Some?
      && (post.sent.Some? ==> put.sent.value == post.sent.value.(verb := Put))
  {
  }

  /** As written, a single option is never sent: a call with exactly one non-nil option
      sends its request with no body at all, so the provider never sees the options. */
  lemma OneOptionSendsNoBody<O, T>(option: O, endpoint: string,
                                   encode: seq<Option<O>> -> Result<string>,
                                   send: Request -> Result<T>)
    ensures DoPOSTRequest(endpoint, [Some(option)], encode, send).sent == Some(Request(Post, endpoint, None))
    ensures DoPUTRequest(endpoint, [Some(option)], encode, send).sent == Some(Request(Put, endpoint, None))
  {
  }

  /** The rule the comment on lines 127 and 157 describes: a nil option is left out, so that
      no `null` is sent, and otherwise the one option given is encoded on its own. */
  function IntendedRequestBody<O>(options: seq<Option<O>>, encode: O -> Result<string>): (r: Result<Option<string>>)
    ensures (|options| == 0 || options[0].None?) ==> r == Success(None)
    ensures |options| > 0 && options[0].Some? ==>
      match encode(options[0].value)
      case Success(body) => r == Success(Some(body))
      case Failure(e) => r == Failure(e)
  {
    if |options| > 0 && options[0].Some? then
      match encode(options[0].value)
      case Failure(e) => Failure(e)
      case Success(body) => Success(Some(body))
    else
      Success(None)
  }

  /** `doPOSTRequest` and `doPUTRequest` with the intended body rule. */
  function SendIntended<O, T>(verb: Verb, endpoint: string, options: seq<Option<O>>,
                              encode: O -> Result<string>,
                              send: Request -> Result<T>): (d: Dispatched<T>)
    ensures d.sent.None? <==> IntendedRequestBody(options, encode).Failure?
    ensures d.sent.None? ==> d.result == Failure(IntendedRequestBody(options, encode).error)
    ensures d.sent.Some? ==> d.sent.value == Request(verb, endpoint, IntendedRequestBody(options, encode).value)
    ensures d.sent.Some? ==> d.result == send(d.sent.value)
  {
    match IntendedRequestBody(options, encode)
    case Failure(e) => Dispatched(Failure(e), None)
    case Success(body) =>
      var request := Request(verb, endpoint, body);
      Dispatched(send(request), Some(request))
  }

  /** With the intended rule, one non-nil option that encodes is sent as the body, and no
      `null` body is ever sent for a nil or missing option. */
  lemma IntendedSendsTheOneOption<O, T>(verb: Verb, option: O, endpoint: string,
                                        encode: O -> Result<string>,
                                        send: Request -> Result<T>)
    requires encode(option).Success?
    ensures SendIntended(verb, endpoint, [Some(option)], encode, send).sent == Some(Request(verb, endpoint, Some(encode(option).value)))
    ensures SendIntended(verb, endpoint, [], encode, send).sent == Some(Request(verb, endpoint, None))
    ensures SendIntended(verb, endpoint, [None], encode, send).sent == Some(Request(verb, endpoint, None))
  {
  }

  /** An argument of `formatAPIPath`: a string, or any other value (modelled as an integer,
      the only other kind the endpoints pass). */
  datatype PathArg = StringArg(s: string) | IntArg(n: int)

  /** Lines 191-193: a string is path-escaped, anything else passes unchanged. */
  function EscapeArg(arg: PathArg, escape: string -> string): (e: PathArg)
    ensures arg.StringArg? <==> e.StringArg?
    ensures arg.StringArg? ==> e.s == escape(arg.s)
    ensures arg.IntArg? ==> e == arg
  {
    match arg
    case StringArg(s) => StringArg(escape(s))
    case IntArg(_) => arg
  }

  /** Every argument escaped on its own, in order. */
  function EscapeArgs(args: seq<PathArg>, escape: string -> string): (r: seq<PathArg>)
    ensures |r| == |args|
    ensures forall i :: 0 <= i < |args| ==> r[i] == EscapeArg(args[i], escape)
  {
    if |args| == 0 then [] else [EscapeArg(args[0], escape)] + EscapeArgs(args[1..], escape)
  }

  /** Escaping works argument by argument: escaping a concatenation is concatenating the
      escaped parts. */
  lemma EscapeArgsAppend(a: seq<PathArg>, b: seq<PathArg>, escape: string -> string)
    ensures EscapeArgs(a + b, escape) == EscapeArgs(a, escape) + EscapeArgs(b, escape)
  {
    var l := EscapeArgs(a + b, escape);
    var r := EscapeArgs(a, escape) + EscapeArgs(b, escape);
    assert forall i :: 0 <= i < |l| ==> l[i] == r[i] by {
      forall i | 0 <= i < |l|
        ensures l[i] == r[i]
      {
        if i < |a| {
          assert (a + b)[i] == a[i];
        } else {
          assert (a + b)[i] == b[i - |a|];
        }
      }
    }
  }

  /** `formatAPIPath` (lines 188-199), with the escaping loop as written and `fmt.Sprintf`
      as the parameter `sprintf`. */
  method FormatAPIPath(format: string, args: seq<PathArg>, escape: string -> string,
                       sprintf: (string, seq<PathArg>) -> string)
    returns (path: string)
    ensures path == sprintf(format, EscapeArgs(args, escape))
  {
    var escaped: seq<PathArg> := [];
    var i := 0;
    while i < |args|
      invariant 0 <= i <= |args|
      invariant escaped == EscapeArgs(args[..i], escape)
    {
      var arg := args[i];
      if arg.StringArg? {
        arg := StringArg(escape(arg.s));
      }
      EscapeArgsAppend(args[..i], [args[i]], escape);
      assert args[..i + 1] == args[..i] + [args[i]];
      escaped := escaped + [arg];
      i := i + 1;
    }
    assert args[..i] == args;
    path := sprintf(format, escaped);
  }
}
