/**
 * The client's `forgeEnemy(sketchDataUrl, onProgress?)`: it reports the
 * `mesh` stage, posts the sketch to `/api/forge-enemy`, and then either
 * reports `done` and resolves with the parsed reply, or rejects with an error
 * message taken from the reply.
 *
 * The server's reply is an input; the effects the function has outside itself
 * (progress callbacks and the request) are returned as a trace, in order.
 */
module EnemyApi {
  import opened Wrappers

  datatype ForgeStage = Sketch | Mesh | Rigging | Animating | Done | Error

  datatype ForgeProgress = ForgeProgress(stage: ForgeStage, message: string)

  const Conjuring: ForgeProgress := ForgeProgress(Mesh, "Conjuring form...")
  const Forged: ForgeProgress := ForgeProgress(Done, "Enemy forged!")

  /** How the body of a non-ok reply parses: a JSON object with perhaps an `error` string, or not JSON. */
  datatype ErrorBody = JsonBody(error: Option<string>) | NotJson

  /** What `fetch` gives back; `result` is the parsed body of an ok reply. */
  datatype Reply<T> = Reply(ok: bool, status: nat, errorBody: ErrorBody, result: T) | NetworkFailure

  /** An effect visible outside the function. */
  datatype Effect = Progressed(progress: ForgeProgress) | PostedSketch(sketch: string)

  datatype Failure = ForgeFailed(message: string) | FetchRejected

  datatype Outcome<T> = Resolved(value: T) | Rejected(failure: Failure)

  function DigitChar(d: nat): (c: char)
    requires d < 10
    ensures '0' <= c <= '9' && c as int - '0' as int == d
  {
    (d + '0' as int) as char
  }

  /** A status code as a template literal prints it: decimal, no leading zeros. */
  function NatToString(n: nat): (s: string)
    ensures |s| >= 1 && (forall i :: 0 <= i < |s| ==> '0' <= s[i] <= '9')
    ensures |s| > 1 ==> s[0] != '0'
    decreases n
  {
    if n < 10 then [DigitChar(n)] else NatToString(n / 10) + [DigitChar(n % 10)]
  }

  /** Reads a string of decimal digits back as a number. */
  function StringToNat(s: string): nat
    requires forall i :: 0 <= i < |s| ==> '0' <= s[i] <= '9'
  {
    if s == [] then 0 else 10 * StringToNat(s[..|s| - 1]) + (s[|s| - 1] as int - '0' as int)
  }

  /** Printing a status loses nothing: it reads back as the same number. */
  lemma {:induction false} NatToStringRoundTrip(n: nat)
    ensures StringToNat(NatToString(n)) == n
    decreases n
  {
    if n >= 10 {
      var s := NatToString(n);
      NatToStringRoundTrip(n / 10);
      assert s[..|s| - 1] == NatToString(n / 10);
    }
  }

  const FailedPrefix: string := "Forge failed ("

  /** `err.error || \`Forge failed (${res.status})\``, with `{ error: 'Unknown error' }` for a body that is not JSON. */
  function ErrorMessage(body: ErrorBody, status: nat): (m: string)
    ensures m != ""
    ensures body.NotJson? ==> m == "Unknown error"
    ensures body.JsonBody? && body.error.Some? && body.error.value != "" ==> m == body.error.value
    ensures body.JsonBody? && (body.error.None? || body.error.value == "") ==>
      && |m| >= |FailedPrefix| + 2
      && m[..|FailedPrefix|] == FailedPrefix
      && m[|m| - 1] == ')'
      && (forall i :: |FailedPrefix| <= i < |m| - 1 ==> '0' <= m[i] <= '9')
      && StringToNat(m[|FailedPrefix|..|m| - 1]) == status
      && m == FailedPrefix + NatToString(status) + ")"
  {
    match body
    case NotJson => "Unknown error"
    case JsonBody(e) =>
      if e.Some? && e.value != "" then e.value
      else
        var digits := NatToString(status);
        var m := FailedPrefix + digits + ")";
        assert m[|FailedPrefix|..|m| - 1] == digits;
        NatToStringRoundTrip(status);
        m
  }

  /**
   * `forgeEnemy`. `hasCallback` says whether `onProgress` was passed; without
   * it no progress is reported, and everything else is the same.
   */
  method ForgeEnemy<T>(sketchDataUrl: string, hasCallback: bool, reply: Reply<T>)
    returns (effects: seq<Effect>, outcome: Outcome<T>)
    ensures reply.NetworkFailure? ==> outcome == Rejected(FetchRejected)
    ensures reply.Reply? && !reply.ok ==> outcome == Rejected(ForgeFailed(ErrorMessage(reply.errorBody, reply.status)))
    ensures reply.Reply? && reply.ok ==> outcome == Resolved(reply.result)
    ensures hasCallback ==>
      effects == [Progressed(Conjuring), PostedSketch(sketchDataUrl)] + (if outcome.Resolved? then [Progressed(Forged)] else [])
    ensures !hasCallback ==> effects == [PostedSketch(sketchDataUrl)]
  {
    effects := [];
    if hasCallback {
      effects := effects + [Progressed(Conjuring)];
    }
    effects := effects + [PostedSketch(sketchDataUrl)];
    if reply.NetworkFailure? {
      return effects, Rejected(FetchRejected);
    }
    if !reply.ok {
      var message := ErrorMessage(reply.errorBody, reply.status);
      return effects, Rejected(ForgeFailed(message));
    }
    if hasCallback {
      effects := effects + [Progressed(Forged)];
    }
    outcome := Resolved(reply.result);
  }
}
