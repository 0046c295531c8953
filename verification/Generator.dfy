/** Document generation: a bounded retry loop with exponential backoff around one model call. */
module Generator {
  import opened Wrappers
  import opened Domain
  import opened JsonIO

  /** What one call to the model yields: text, or an exception. */
  datatype Reply = Answer(text: string) | Error

  datatype GenerateError = NoPromptForIntent | GenerationFailed(attempts: int)

  datatype GeneratedDocument = GeneratedDocument(content: Content, attempts: nat)

  /** Decoding a snippet and validating it against an intent's schema; foreign, so a parameter. */
  type Schema = (string, Intent) -> Option<string>

  function Parse(schema: Schema, reply: Reply, intent: Intent): Option<Content> {
    if reply.Error? then None else
      var snippet := ExtractJsonObject(reply.text);
      if snippet.Failure? then None else
        var body := schema(snippet.value, intent);
        if body.None? then None else Some(Content(intent, body.value))
  }

  /** The answer holds an object that validates against the asked intent's schema, and `content` is that. */
  ghost predicate Validates(schema: Schema, reply: Reply, intent: Intent, content: Content) {
    && reply.Answer? && content.schema == intent
    && exists snippet :: ExtractJsonObject(reply.text) == Success(snippet) && schema(snippet, intent) == Some(content.body)
  }

  lemma ParsesExactly(schema: Schema, reply: Reply, intent: Intent, content: Content)
    ensures Parse(schema, reply, intent) == Some(content) <==> Validates(schema, reply, intent, content)
  {
    if reply.Answer? && ExtractJsonObject(reply.text).Success? {
      assert ExtractJsonObject(reply.text) == Success(ExtractJsonObject(reply.text).value);
    }
  }

  function Pow2(n: nat): nat {
    if n == 0 then 1 else 2 * Pow2(n - 1)
  }

  /** The pause after failed attempt `n`, counting from 0. */
  function Pause(base: real, n: nat): real {
    base * Pow2(n) as real
  }

  /** The pauses after the first `n` failed attempts. */
  function Backoff(base: real, n: nat): seq<real> {
    if n == 0 then [] else Backoff(base, n - 1) + [Pause(base, n - 1)]
  }

  function Sum(s: seq<real>): real {
    if s == [] then 0.0 else Sum(s[..|s| - 1]) + s[|s| - 1]
  }

  lemma Doubling(base: real, p: real)
    ensures base * (p - 1.0) + base * p == base * (2.0 * p - 1.0)
  {
  }

  /** Pausing n times takes base * (2^n - 1) in all. */
  lemma {:induction false} BackoffTotal(base: real, n: nat)
    ensures Sum(Backoff(base, n)) == base * (Pow2(n) - 1) as real
  {
    if n > 0 {
      BackoffTotal(base, n - 1);
      var before := Backoff(base, n - 1);
      assert Backoff(base, n)[..|before|] == before;
      Doubling(base, Pow2(n - 1) as real);
    }
  }

  /** Whether attempt `k` is the first to parse. */
  ghost predicate FirstSuccess(schema: Schema, replies: nat -> Reply, intent: Intent, k: nat) {
    && Parse(schema, replies(k), intent).Some?
    && forall j | 0 <= j < k :: Parse(schema, replies(j), intent).None?
  }

  class Generator {
    const schema: Schema
    const maxAttempts: int
    const backoffBase: real
    var slept: seq<real>     // every pause so far

    constructor (schema: Schema, maxAttempts: int, backoffBase: real)
      ensures slept == [] && this.schema == schema && this.maxAttempts == maxAttempts && this.backoffBase == backoffBase
    {
      this.schema, this.maxAttempts, this.backoffBase := schema, maxAttempts, backoffBase;
      slept := [];
    }

    /** The parse of the first reply that parses, if one of the attempts allowed gives one; it pauses after
        every failed attempt but the last. */
    method Generate(intent: Intent, replies: nat -> Reply) returns (result: Result<GeneratedDocument, GenerateError>)
      modifies this
      ensures result == Failure(NoPromptForIntent) <==> intent == NoIntent
      ensures intent == NoIntent ==> slept == old(slept)
      ensures result.Success? ==>
                var k := result.value.attempts - 1;
                && 0 <= k < maxAttempts && FirstSuccess(schema, replies, intent, k)
                && Some(result.value.content) == Parse(schema, replies(k), intent)
                && Validates(schema, replies(k), intent, result.value.content)
                && slept == old(slept) + Backoff(backoffBase, k)
      ensures intent != NoIntent ==> (result.Failure? <==>
                forall j: nat | j < maxAttempts :: Parse(schema, replies(j), intent).None?)
      ensures result.Failure? && intent != NoIntent ==>
                && result == Failure(GenerationFailed(maxAttempts))
                && slept == old(slept) + Backoff(backoffBase, if maxAttempts > 0 then maxAttempts - 1 else 0)
    {
      if intent == NoIntent {
        return Failure(NoPromptForIntent);
      }
      var attempt: nat := 0;
      while attempt < maxAttempts
        invariant forall j: nat | j < attempt :: Parse(schema, replies(j), intent).None?
        invariant attempt <= if maxAttempts > 0 then maxAttempts else 0
        invariant slept == old(slept) + Backoff(backoffBase, if attempt == maxAttempts > 0 then attempt - 1 else attempt)
      {
        var content := Parse(schema, replies(attempt), intent);
        if content.Some? {
          ParsesExactly(schema, replies(attempt), intent, content.value);
          return Success(GeneratedDocument(content.value, attempt + 1));
        }
        ghost var before := Backoff(backoffBase, attempt);
        if attempt + 1 < maxAttempts {
          var pause := Pause(backoffBase, attempt);
          assert old(slept) + (before + [pause]) == (old(slept) + before) + [pause];
          slept := slept + [pause];
        }
        attempt := attempt + 1;
      }
      return Failure(GenerationFailed(maxAttempts));
    }
  }

  /** A response wrapped in prose is parsed like the bare object. */
  lemma WrappedParsesLikeBare(schema: Schema, prefix: string, body: string, suffix: string, intent: Intent)
    requires '{' !in prefix && '}' !in suffix
    requires |body| >= 2 && body[0] == '{' && body[|body| - 1] == '}'
    ensures Parse(schema, Answer(prefix + body + suffix), intent) == Parse(schema, Answer(body), intent)
  {
    hide ExtractJsonObject;
    ExtractUnwraps(prefix, body, suffix);
    ExtractUnwraps([], body, []);
    assert [] + body + [] == body;
  }
}
