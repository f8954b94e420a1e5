/**
 * ai/discussion.go: a validator's one-shot contribution to a discussion
 * transaction. The persona lists the agent's traits, collected from its
 * metadata with the credentials left out; the model's JSON reply becomes a
 * Discussion record. The record's ID and timestamp come from uuid.New and
 * time.Now in the source and are parameters here.
 */
module ValidatorDiscussion {
  import opened Wrappers
  import opened Text
  import opened Core
  import opened AiTypes
  import opened Oracle

  /** The metadata keys whose scalar values never become traits. */
  predicate IsSecretKey(key: string) {
    key == "api_key" || key == "endpoint"
  }

  /** The traits one metadata entry contributes: every item of a list, a scalar unless its key is secret. */
  function EntryTraits(e: MetaEntry): seq<string> {
    match e.value
    case List(items) => items
    case Scalar(text) => if IsSecretKey(e.key) then [] else [text]
  }

  /** The traits of the entries, in iteration order. */
  function Traits(metadata: seq<MetaEntry>): seq<string> {
    if metadata == [] then []
    else Traits(metadata[..|metadata| - 1]) + EntryTraits(metadata[|metadata| - 1])
  }

  /** The trait loop of GetValidatorDiscussion: one append per list item or admitted scalar. */
  method CollectTraits(metadata: seq<MetaEntry>) returns (traits: seq<string>)
    ensures traits == Traits(metadata)
  {
    traits := [];
    var i := 0;
    while i < |metadata|
      invariant 0 <= i <= |metadata|
      invariant traits == Traits(metadata[..i])
    {
      var e := metadata[i];
      assert metadata[..i + 1][..i] == metadata[..i];
      match e.value {
        case List(items) =>
          var j := 0;
          ghost var start := traits;
          while j < |items|
            invariant 0 <= j <= |items|
            invariant traits == start + items[..j]
          {
            traits := traits + [items[j]];
            assert items[..j + 1] == items[..j] + [items[j]];
            j := j + 1;
          }
          assert items[..|items|] == items;
        case Scalar(text) =>
          if e.key != "api_key" && e.key != "endpoint" {
            traits := traits + [text];
          }
      }
      i := i + 1;
    }
    assert metadata[..|metadata|] == metadata;
  }

  /** The description written before the prompt: "You are <name>, with these traits: <t1>, <t2>, ...". */
  function Persona(name: string, traits: seq<string>): string {
    "You are " + name + ", with these traits: " + Join(traits, ", ")
  }

  /** The record GetValidatorDiscussion builds from a parsed reply; an unparsable reply gives Discussion{}. */
  function DiscussionOf(agent: Agent, reply: Option<DiscussionReply>, id: string, now: int): Discussion {
    match reply
    case None => ZeroDiscussion
    case Some(r) => Discussion(id, agent.id, agent.name, r.message, r.support, r.oppose, r.question, now, 1)
  }

  /** GetValidatorDiscussion's effect on the deliberation state: the record and the state after it. */
  function DiscussionTurn(env: Env, agent: Agent, tx: Transaction, decode: string -> Option<DiscussionReply>,
                          id: string, now: int): (Discussion, Env)
  {
    if !agent.isValidator then (ZeroDiscussion, env)
    else (DiscussionOf(agent, decode(Response(env.script, 0)), id, now),
          Env(env.files, Drop(env.script, 1), env.asked + [DiscussionPrompt(Persona(agent.name, Traits(agent.metadata)), tx.content)]))
  }

  /**
   * GetValidatorDiscussion: a non-validator gets Discussion{} without a call;
   * otherwise one call showing the persona and the transaction's content.
   */
  method GetValidatorDiscussion(agent: Agent, tx: Transaction, llm: Llm, decode: string -> Option<DiscussionReply>,
                                id: string, now: int) returns (discussion: Discussion)
    modifies llm
    ensures !agent.isValidator ==>
              discussion == ZeroDiscussion && llm.script == old(llm.script) && llm.asked == old(llm.asked)
    ensures agent.isValidator ==>
              discussion == DiscussionOf(agent, decode(Response(old(llm.script), 0)), id, now)
              && llm.script == Drop(old(llm.script), 1)
              && llm.asked == old(llm.asked) + [DiscussionPrompt(Persona(agent.name, Traits(agent.metadata)), tx.content)]
  {
    if !agent.isValidator {
      return ZeroDiscussion;
    }
    var traits := CollectTraits(agent.metadata);
    var description := Persona(agent.name, traits);
    var response := llm.Generate(DiscussionPrompt(description, tx.content));
    var reply := decode(response);
    discussion := DiscussionOf(agent, reply, id, now);
  }

  // ---------------------------------------------------------- properties

  /**
   * A trait is either an item of some list entry or the value of some scalar
   * entry whose key is not secret; and every such item or value is a trait.
   */
  lemma {:induction false} TraitsMembership(metadata: seq<MetaEntry>, t: string)
    ensures t in Traits(metadata) <==>
            exists i :: 0 <= i < |metadata| && t in EntryTraits(metadata[i])
  {
    if metadata != [] {
      var init := metadata[..|metadata| - 1];
      TraitsMembership(init, t);
      if t in Traits(metadata) {
        if t !in Traits(init) {
          assert t in EntryTraits(metadata[|metadata| - 1]);
        } else {
          var i :| 0 <= i < |init| && t in EntryTraits(init[i]);
          assert metadata[i] == init[i];
        }
      }
      if exists i :: 0 <= i < |metadata| && t in EntryTraits(metadata[i]) {
        var i :| 0 <= i < |metadata| && t in EntryTraits(metadata[i]);
        if i < |init| {
          assert init[i] == metadata[i];
        }
      }
    }
  }

  /** What EntryTraits admits, spelled out: list items always, scalars only under a key that is not secret. */
  lemma EntryTraitsAdmit(e: MetaEntry, t: string)
    ensures t in EntryTraits(e) <==>
            (e.value.List? && t in e.value.items) || (e.value.Scalar? && t == e.value.text && !IsSecretKey(e.key))
  {
  }

  /** Metadata made only of secret scalars contributes no trait, so the persona ends right after its prefix. */
  lemma {:induction false} SecretsNeverShown(metadata: seq<MetaEntry>)
    requires forall i :: 0 <= i < |metadata| ==> metadata[i].value.Scalar? && IsSecretKey(metadata[i].key)
    ensures Traits(metadata) == []
  {
    if metadata != [] {
      SecretsNeverShown(metadata[..|metadata| - 1]);
    }
  }

  /** Traits of a concatenation are the traits of each part, in order. */
  lemma {:induction false} TraitsAppend(a: seq<MetaEntry>, b: seq<MetaEntry>)
    ensures Traits(a + b) == Traits(a) + Traits(b)
    decreases |b|
  {
    if b == [] {
      assert a + b == a;
    } else {
      var b', last := b[..|b| - 1], b[|b| - 1];
      var ab := a + b;
      assert ab[..|ab| - 1] == a + b' && ab[|ab| - 1] == last;
      TraitsAppend(a, b');
      AppendAssoc(Traits(a), Traits(b'), EntryTraits(last));
    }
  }

  /**
   * A validator's record carries its own ID and name, the reply's message and
   * stances, round 1 and the clock reading; any other outcome is the zero
   * record, whose round is 0. So a record is a real contribution exactly when
   * its round is 1.
   */
  lemma DiscussionRecord(agent: Agent, reply: Option<DiscussionReply>, id: string, now: int)
    ensures var d := DiscussionOf(agent, reply, id, now);
            (d.round == 1 <==> reply.Some?)
            && (reply.Some? ==>
                  d.validatorID == agent.id && d.validatorName == agent.name && d.id == id && d.timestamp == now
                  && d.message == reply.value.message && d.support == reply.value.support
                  && d.oppose == reply.value.oppose && d.question == reply.value.question)
            && (reply.None? ==> d == ZeroDiscussion)
  {
  }

  /**
   * A discussion supports the transaction only when the agent is a validator
   * and the reply text (the script's response, or the unavailable text when it
   * gave none) decodes with support set;
   * the turn never touches the files and makes at most one call.
   */
  lemma DiscussionTurnSupport(env: Env, agent: Agent, tx: Transaction, decode: string -> Option<DiscussionReply>,
                              id: string, now: int)
    ensures var (d, after) := DiscussionTurn(env, agent, tx, decode, id, now);
            (d.support <==> agent.isValidator && decode(Response(env.script, 0)).Some?
                            && decode(Response(env.script, 0)).value.support)
            && after.files == env.files
            && |after.asked| == |env.asked| + (if agent.isValidator then 1 else 0)
  {
  }

  /** The persona starts with the agent's name and ends with the traits joined by ", ". */
  lemma PersonaShape(name: string, traits: seq<string>)
    ensures var p := Persona(name, traits);
            var prefix := "You are " + name + ", with these traits: ";
            HasPrefix(p, prefix) && p[|prefix|..] == Join(traits, ", ")
  {
    var prefix := "You are " + name + ", with these traits: ";
    assert Persona(name, traits) == prefix + Join(traits, ", ");
  }
}
