/**
 * The description and embedding agents. A description agent wraps a
 * user's prompt in a two-message chat (a fixed system instruction, then
 * the prompt) and either returns that chat (test mode) or the first
 * choice of the completion service's reply. Both steps are memoised per
 * agent, as `functools.cache` does: a successful result is stored under
 * the call's arguments and reused; a raised exception is not stored.
 */
module Agents {
  import opened Wrappers
  import opened Exceptions
  import Text
  import opened Llm
  import opened MovieUsers
  import opened MusicUsers

  /** `EmbedAgent`, `EmbedAgentMovie`, `EmbedAgentMusic`. */
  datatype Kind = Base | Movie | Music

  function ClassName(kind: Kind): string
  {
    match kind
    case Base => "EmbedAgent"
    case Movie => "EmbedAgentMovie"
    case Music => "EmbedAgentMusic"
  }

  /** Reading `self.agent` when the constructor did not set it. */
  function NoAdapter(kind: Kind): Error
  {
    Error(AttributeError, "'" + ClassName(kind) + "' object has no attribute 'agent'")
  }

  const Unhashable := Error(TypeError, "unhashable type: 'list'")
  const NoneText := Error(AttributeError, "'NoneType' object has no attribute 'replace'")

  /** The constructor attaches an adapter only for the agent name `"openai"`. */
  function AttachedAdapter(name: string, service: Adapter): (a: Option<Adapter>)
    ensures a.Some? <==> name == "openai"
    ensures a.Some? ==> a.value == service
  {
    if name == "openai" then Some(service) else None
  }

  // ------------------------------------------------------------------ subjects

  /** The user handed to an agent: either dataset's user object. */
  datatype Subject = MovieSubject(movie: MovieUser) | MusicSubject(music: MusicUser)

  function SubjectObjects(s: Subject): set<object>
  {
    match s
    case MovieSubject(m) => {m}
    case MusicSubject(u) => {u}
  }

  ghost predicate SubjectValid(s: Subject)
    reads SubjectObjects(s)
  {
    match s
    case MovieSubject(m) => m.Valid()
    case MusicSubject(u) => u.Valid()
  }

  /** `user.prompt()`. */
  function SubjectPrompt(s: Subject): Result<string, Error>
    reads SubjectObjects(s)
    requires SubjectValid(s)
  {
    match s
    case MovieSubject(m) => m.Prompt()
    case MusicSubject(u) => u.Rendering()
  }

  // ------------------------------------------------------------------- prompts

  /** The system message: the instruction text with every newline turned into a space. */
  function SystemContent(instructions: string): (c: string)
    ensures '\n' !in c
  {
    Text.ReplaceCharRemoves(instructions, '\n', ' ');
    Text.ReplaceChar(instructions, '\n', ' ')
  }

  /** The chat sent for a user: a system message, then a user message holding the prompt. */
  function BuildPrompt(instructions: string, prompt: string): (m: seq<Message>)
    ensures |m| == 2
    ensures m[0].role == "system" && m[1].role == "user"
    ensures m[1].content == prompt
    ensures '\n' !in m[0].content
  {
    [Message("system", SystemContent(instructions)), Message("user", prompt)]
  }

  /** `reply.choices[0].message.content`. */
  function Answer(reply: Reply): (r: Result<string, Error>)
    ensures r.Success? <==> |reply.choices| > 0
    ensures r.Success? ==> r.value == reply.choices[0].content
    ensures r.Failure? ==> r.error == Error(IndexError, ListIndexOutOfRange)
  {
    if |reply.choices| == 0 then Failure(Error(IndexError, ListIndexOutOfRange))
    else Success(reply.choices[0].content)
  }

  /** The chat a description call sends to the service, if it sends one. */
  function Outgoing(adapter: Option<Adapter>, instructions: string, prompt: Result<string, Error>, test: bool): Option<seq<Message>>
  {
    if prompt.Success? && !test && adapter.Some? then Some(BuildPrompt(instructions, prompt.value)) else None
  }

  /**
   * An uncached description by the movie or music agent: the prompt is
   * built first (so a failing `user.prompt()` raises first), test mode
   * returns the chat itself, and otherwise the service is asked.
   */
  function DescribeFresh(kind: Kind, adapter: Option<Adapter>, instructions: string, prompt: Result<string, Error>, test: bool): Result<Description, Error>
  {
    if prompt.Failure? then Failure(prompt.error)
    else
      var chat := BuildPrompt(instructions, prompt.value);
      if test then Success(PromptMessages(chat))
      else if adapter.None? then Failure(NoAdapter(kind))
      else match adapter.value.sendPrompt(chat)
        case Failure(e) => Failure(e)
        case Success(reply) =>
          match Answer(reply)
          case Failure(e) => Failure(e)
          case Success(text) => Success(Completion(text))
  }

  /**
   * The description step: in test mode the result is the chat (system
   * instruction, then the user's prompt) and nothing is sent; otherwise,
   * with an adapter, exactly that chat is sent and the result is the
   * first choice's content.
   */
  lemma DescribeSpec(kind: Kind, adapter: Option<Adapter>, instructions: string, prompt: Result<string, Error>, test: bool)
    ensures prompt.Failure? ==> DescribeFresh(kind, adapter, instructions, prompt, test) == Failure(prompt.error)
    ensures prompt.Success? && test ==>
      && DescribeFresh(kind, adapter, instructions, prompt, test) == Success(PromptMessages(BuildPrompt(instructions, prompt.value)))
      && Outgoing(adapter, instructions, prompt, test).None?
    ensures prompt.Success? && !test && adapter.None? ==> DescribeFresh(kind, adapter, instructions, prompt, test) == Failure(NoAdapter(kind))
    ensures prompt.Success? && !test && adapter.Some? ==>
      var chat := BuildPrompt(instructions, prompt.value);
      && Outgoing(adapter, instructions, prompt, test) == Some(chat)
      && var reply := adapter.value.sendPrompt(chat);
         && (reply.Success? && |reply.value.choices| > 0 ==>
               DescribeFresh(kind, adapter, instructions, prompt, test) == Success(Completion(reply.value.choices[0].content)))
         && (reply.Success? && |reply.value.choices| == 0 ==>
               DescribeFresh(kind, adapter, instructions, prompt, test) == Failure(Error(IndexError, ListIndexOutOfRange)))
         && (reply.Failure? ==> DescribeFresh(kind, adapter, instructions, prompt, test) == Failure(reply.error))
  {
  }

  // --------------------------------------------------------------------- memos

  /** Positional and keyword calls build different cache keys. */
  datatype CallForm = Positional | Keyword

  /** What a memoised call returns, with the memo table after it. */
  datatype Step<R, C> = Step(result: Result<R, Error>, table: C)

  /** The cache key of `get_user_description(user, test)`. */
  datatype DescKey = DescKey(user: Subject, test: bool, form: CallForm)

  /**
   * One call through a `functools.cache` table: a stored value is
   * returned as is; otherwise the fresh outcome is returned and stored
   * only when it is a value.
   */
  function Memo<K, V>(cache: map<K, V>, key: K, computed: Result<V, Error>): Step<V, map<K, V>>
  {
    if key in cache then Step(Success(cache[key]), cache)
    else if computed.Success? then Step(computed, cache[key := computed.value])
    else Step(computed, cache)
  }

  /**
   * A successful call is remembered: repeating it returns the same value
   * and changes nothing, whatever the service would have answered the
   * second time. Other keys are not affected.
   */
  lemma MemoRepeats<K, V>(cache: map<K, V>, key: K, first: Result<V, Error>, second: Result<V, Error>, other: K)
    requires other != key
    ensures var s := Memo(cache, key, first);
      s.result.Success? ==> Memo(s.table, key, second) == s
    ensures var c1 := Memo(cache, key, first).table;
      (other in c1 <==> other in cache) && (other in cache ==> c1[other] == cache[other])
  {
  }

  /** `embed_description`'s work for one argument, after the cache lookup missed. */
  function EmbedFresh(kind: Kind, adapter: Option<Adapter>, arg: Option<Description>): Result<Embedding, Error>
    requires !(arg.Some? && arg.value.PromptMessages?)
  {
    if adapter.None? then Failure(NoAdapter(kind))
    else if arg.None? then Failure(NoneText)
    else adapter.value.getEmbedding(arg.value.text)
  }

  /**
   * `encode_description(arg)`: a list is unhashable, so it fails before
   * the cache is consulted; only successful embeddings of text are stored.
   */
  function EmbedCall(kind: Kind, adapter: Option<Adapter>, cache: map<string, Embedding>, arg: Option<Description>): Step<Embedding, map<string, Embedding>>
  {
    if arg.Some? && arg.value.PromptMessages? then Step(Failure(Unhashable), cache)
    else if arg.Some? then Memo(cache, arg.value.text, EmbedFresh(kind, adapter, arg))
    else Step(EmbedFresh(kind, adapter, arg), cache)
  }

  /** The text an embedding call sends to the service, if it sends one. */
  function EmbedOutgoing(adapter: Option<Adapter>, cache: map<string, Embedding>, arg: Option<Description>): Option<string>
  {
    if adapter.Some? && arg.Some? && arg.value.Completion? && arg.value.text !in cache then Some(arg.value.text) else None
  }

  /**
   * Embeddings are memoised per description text: a text already embedded
   * is answered from the cache without asking the service, and the value
   * is the first answer. The chat returned in test mode cannot be embedded.
   */
  lemma EmbedMemoised(kind: Kind, adapter: Option<Adapter>, cache: map<string, Embedding>, text: string)
    ensures var s := EmbedCall(kind, adapter, cache, Some(Completion(text)));
      s.result.Success? ==>
        && text in s.table && s.table[text] == s.result.value
        && EmbedCall(kind, adapter, s.table, Some(Completion(text))) == s
        && EmbedOutgoing(adapter, s.table, Some(Completion(text))).None?
    ensures forall chat :: EmbedCall(kind, adapter, cache, Some(PromptMessages(chat))) == Step(Failure(Unhashable), cache)
  {
  }

  // --------------------------------------------------------------------- agent

  class EmbedAgent {
    const kind: Kind
    const adapter: Option<Adapter>
    /** The instruction text of the system message, as written in the source (it is not modelled). */
    const instructions: string
    /** The memo table of `get_user_description`. */
    var descriptions: map<DescKey, Description>
    /** The memo table of `encode_description`. */
    var embeddings: map<string, Embedding>
    /** Every chat sent to the completion service, in order. */
    ghost var sent: seq<seq<Message>>
    /** Every text sent to the embedding service, in order. */
    ghost var embedded: seq<string>

    /** `EmbedAgent(agent=name)`: the adapter is attached iff the name is `"openai"`. */
    constructor (kind: Kind, name: string, service: Adapter, instructions: string)
      ensures this.kind == kind && this.instructions == instructions
      ensures adapter == AttachedAdapter(name, service)
      ensures descriptions == map[] && embeddings == map[] && sent == [] && embedded == []
    {
      this.kind := kind;
      this.adapter := AttachedAdapter(name, service);
      this.instructions := instructions;
      descriptions, embeddings := map[], map[];
      sent, embedded := [], [];
    }

    /** What `get_user_description` returns, and the memo table after it. */
    function DescribeCall(user: Subject, test: bool, form: CallForm): Step<Option<Description>, map<DescKey, Description>>
      reads this, SubjectObjects(user)
      requires SubjectValid(user)
    {
      if kind == Base then Step(Success(None), descriptions)
      else
        var s := Memo(descriptions, DescKey(user, test, form), DescribeFresh(kind, adapter, instructions, SubjectPrompt(user), test));
        Step(if s.result.Success? then Success(Some(s.result.value)) else Failure(s.result.error), s.table)
    }

    /** The chat `get_user_description` sends, if any: only on a cache miss. */
    function DescribeSends(user: Subject, test: bool, form: CallForm): seq<seq<Message>>
      reads this, SubjectObjects(user)
      requires SubjectValid(user)
    {
      if kind == Base || DescKey(user, test, form) in descriptions then []
      else match Outgoing(adapter, instructions, SubjectPrompt(user), test)
        case None => []
        case Some(chat) => [chat]
    }

    /**
     * `get_user_description(user, test)`: the base agent returns `None`;
     * the movie and music agents build the chat from `user.prompt()` and
     * go through the memo table.
     */
    method GetUserDescription(user: Subject, test: bool, form: CallForm) returns (r: Result<Option<Description>, Error>)
      requires SubjectValid(user)
      modifies this`descriptions, this`sent
      ensures r == old(DescribeCall(user, test, form)).result
      ensures descriptions == old(DescribeCall(user, test, form)).table
      ensures sent == old(sent) + old(DescribeSends(user, test, form))
    {
      if kind == Base {
        return Success(None);
      }
      var key := DescKey(user, test, form);
      if key in descriptions {
        return Success(Some(descriptions[key]));
      }
      var outcome := Describe(user, test);
      if outcome.Failure? {
        return Failure(outcome.error);
      }
      descriptions := descriptions[key := outcome.value];
      r := Success(Some(outcome.value));
    }

    /** The body of the movie and music `get_user_description`, below the memo table. */
    method Describe(user: Subject, test: bool) returns (r: Result<Description, Error>)
      requires SubjectValid(user)
      modifies this`sent
      ensures r == DescribeFresh(kind, adapter, instructions, SubjectPrompt(user), test)
      ensures sent == old(sent) + match Outgoing(adapter, instructions, SubjectPrompt(user), test) case None => [] case Some(chat) => [chat]
    {
      var prompt: Result<string, Error>;
      match user {
        case MovieSubject(m) => prompt := m.Prompt();
        case MusicSubject(u) => prompt := u.Prompt();
      }
      if prompt.Failure? {
        return Failure(prompt.error);
      }
      var chat := BuildPrompt(instructions, prompt.value);
      if test {
        return Success(PromptMessages(chat));
      }
      if adapter.None? {
        return Failure(NoAdapter(kind));
      }
      sent := sent + [chat];
      var reply := adapter.value.sendPrompt(chat);
      if reply.Failure? {
        return Failure(reply.error);
      }
      var answer := Answer(reply.value);
      if answer.Failure? {
        return Failure(answer.error);
      }
      r := Success(Completion(answer.value));
    }

    /** `encode_description(arg)`. */
    method EncodeDescription(arg: Option<Description>) returns (r: Result<Embedding, Error>)
      modifies this`embeddings, this`embedded
      ensures r == EmbedCall(kind, adapter, old(embeddings), arg).result
      ensures embeddings == EmbedCall(kind, adapter, old(embeddings), arg).table
      ensures embedded == old(embedded) + (match EmbedOutgoing(adapter, old(embeddings), arg) case None => [] case Some(t) => [t])
    {
      if arg.Some? && arg.value.PromptMessages? {
        return Failure(Unhashable);
      }
      if arg.Some? && arg.value.text in embeddings {
        return Success(embeddings[arg.value.text]);
      }
      if adapter.None? {
        return Failure(NoAdapter(kind));
      }
      if arg.None? {
        return Failure(NoneText);
      }
      var text := arg.value.text;
      embedded := embedded + [text];
      r := adapter.value.getEmbedding(text);
      if r.Success? {
        embeddings := embeddings[text := r.value];
      }
    }

    /** `encode_user(user, test)`: the description (a positional call), then its embedding. */
    method EncodeUser(user: Subject, test: bool) returns (r: Result<Embedding, Error>)
      requires SubjectValid(user)
      modifies this`descriptions, this`sent, this`embeddings, this`embedded
      ensures descriptions == old(DescribeCall(user, test, Positional)).table
      ensures sent == old(sent) + old(DescribeSends(user, test, Positional))
      ensures var d := old(DescribeCall(user, test, Positional)).result;
        d.Failure? ==> r == Failure(d.error) && embeddings == old(embeddings) && embedded == old(embedded)
      ensures var d := old(DescribeCall(user, test, Positional)).result;
        d.Success? ==>
          (&& r == EmbedCall(kind, adapter, old(embeddings), d.value).result
           && embeddings == EmbedCall(kind, adapter, old(embeddings), d.value).table
           && embedded == old(embedded) + (match EmbedOutgoing(adapter, old(embeddings), d.value) case None => [] case Some(t) => [t]))
    {
      var d := GetUserDescription(user, test, Positional);
      if d.Failure? {
        return Failure(d.error);
      }
      r := EncodeDescription(d.value);
    }
  }

  /**
   * A description is asked for once per key: after a successful call the
   * same call is answered from the memo table, sends nothing and changes
   * nothing; the test and non-test calls are different keys.
   */
  lemma DescriptionMemoised(agent: EmbedAgent, user: Subject, test: bool, form: CallForm)
    requires SubjectValid(user) && agent.kind != Base
    requires DescKey(user, test, form) in agent.descriptions
    ensures agent.DescribeCall(user, test, form) == Step(Success(Some(agent.descriptions[DescKey(user, test, form)])), agent.descriptions)
    ensures agent.DescribeSends(user, test, form) == []
    ensures DescKey(user, test, form) != DescKey(user, !test, form)
  {
  }

  /** The base agent describes every user as `None` and never calls the service. */
  lemma BaseDescribesNone(agent: EmbedAgent, user: Subject, test: bool, form: CallForm)
    requires SubjectValid(user) && agent.kind == Base
    ensures agent.DescribeCall(user, test, form) == Step(Success(None), agent.descriptions)
    ensures agent.DescribeSends(user, test, form) == []
  {
  }
}
