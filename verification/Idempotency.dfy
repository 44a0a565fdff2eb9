/** Posting is idempotent per (tenant, key), however many requests race. */
module Idempotency {
  import opened Wrappers
  import opened Schema
  import opened Pipeline
  import opened PipelineInvariants
  import opened PipelineTheorems
  import PostingProof

  predicate KeyFor(s: State, k: IdemKey, e: EntryId)
  {
    k in s.keys && s.keys[k] == e
  }

  predicate EventFor(s: State, v: EventId, e: EntryId)
  {
    TargetOf(s.events, v) == Some(e)
  }

  ghost predicate HasKeyAndEvent(s: State, e: EntryId)
    requires e in s.entries
  {
    && (exists k :: KeyFor(s, k, e) && k.tenant == s.entries[e].tenant)
    && (exists v :: EventFor(s, v, e) && s.events[v].tenant == s.entries[e].tenant)
  }

  /** Entries, idempotency rows and journal_entry.posted events correspond one to one, within one tenant. */
  ghost predicate OneToOne(s: State)
  {
    && (forall e :: e in s.entries ==> HasKeyAndEvent(s, e))
    && (forall k, k', e :: KeyFor(s, k, e) && KeyFor(s, k', e) ==> k == k')
    && (forall v, v', e :: EventFor(s, v, e) && EventFor(s, v', e) ==> v == v')
    && (forall k :: k in s.keys ==> s.keys[k] in s.entries)
    && (forall v :: v in s.events && s.events[v].kind == JournalPosted ==>
        exists e :: e in s.entries && EventFor(s, v, e))
  }

  lemma EntryHasKeyAndEvent(cfg: Config, s: State, e: EntryId)
    requires EntriesAnchored(cfg, s) && e in s.entries
    ensures HasKeyAndEvent(s, e)
  {
    assert Anchored(cfg, s, e);
    assert KeyFor(s, s.origin[e].key, e);
    assert EventFor(s, s.origin[e].event, e);
  }

  lemma EventHasEntry(s: State, v: EventId)
    requires EventsAnchored(s) && s.origin.Keys == s.entries.Keys && v in s.events && s.events[v].kind == JournalPosted
    ensures exists e :: e in s.entries && EventFor(s, v, e)
  {
    assert EventFor(s, v, s.events[v].aggregate.value);
  }

  lemma IndexesInjective(cfg: Config, s: State)
    requires KeysAnchored(s) && EventsAnchored(s)
    ensures forall k, k', e :: KeyFor(s, k, e) && KeyFor(s, k', e) ==> k == k'
    ensures forall v, v', e :: EventFor(s, v, e) && EventFor(s, v', e) ==> v == v'
  {
  }

  lemma JournalIsOneToOne(cfg: Config, s: State)
    requires JournalInv(cfg, s)
    ensures OneToOne(s)
  {
    IndexesInjective(cfg, s);
    forall e | e in s.entries
      ensures HasKeyAndEvent(s, e)
    {
      EntryHasKeyAndEvent(cfg, s, e);
    }
    forall v | v in s.events && s.events[v].kind == JournalPosted
      ensures exists e :: e in s.entries && EventFor(s, v, e)
    {
      EventHasEntry(s, v);
    }
  }

  lemma RunIsOneToOne(cfg: Config, states: seq<State>, steps: seq<Step>, i: nat)
    requires Run(cfg, states, steps) && i < |states|
    ensures OneToOne(states[i])
  {
    RunInv(cfg, states, steps, i);
    JournalIsOneToOne(cfg, states[i]);
  }

  /** The request of call `p` has been answered with the entry `id`, as posted or as cached. */
  predicate Answered(s: State, p: PostId, id: EntryId)
  {
    && p in s.posts && s.posts[p].Done?
    && (s.posts[p].reply == Posted(id) || s.posts[p].reply == Cached(id))
  }

  /** What a reply names is the entry of the key, in a ledger that maps keys to entries one to one. */
  lemma AnsweredIsKeyed(cfg: Config, s: State, p: PostId, id: EntryId)
    requires PostsInv(cfg, s) && JournalInv(cfg, s) && Answered(s, p, id)
    ensures IdemKey(s.posts[p].dto.tenant, s.posts[p].dto.key) in s.keys
    ensures s.keys[IdemKey(s.posts[p].dto.tenant, s.posts[p].dto.key)] == id
    ensures id in s.entries && s.entries[id].tenant == s.posts[p].dto.tenant
  {
    assert TxOk(cfg, s, s.posts[p]);
    assert Anchored(cfg, s, id);
  }

  lemma RepliesInOrder(cfg: Config, states: seq<State>, steps: seq<Step>, i: nat, j: nat, p: PostId, q: PostId,
          a: EntryId, b: EntryId)
    requires Run(cfg, states, steps) && i <= j < |states|
    requires Answered(states[i], p, a) && Answered(states[j], q, b)
    ensures var x, y := states[i].posts[p].dto, states[j].posts[q].dto;
            a == b <==> x.tenant == y.tenant && x.key == y.key
    ensures a in states[i].entries && states[i].entries[a].tenant == states[i].posts[p].dto.tenant
    ensures b in states[j].entries && states[j].entries[b].tenant == states[j].posts[q].dto.tenant
  {
    RunInv(cfg, states, steps, i);
    RunInv(cfg, states, steps, j);
    RunExtends(cfg, states, steps, i, j);
    AnsweredIsKeyed(cfg, states[i], p, a);
    AnsweredIsKeyed(cfg, states[j], q, b);
    IndexesInjective(cfg, states[j]);
    assert KeyFor(states[j], IdemKey(states[i].posts[p].dto.tenant, states[i].posts[p].dto.key), a);
    assert KeyFor(states[j], IdemKey(states[j].posts[q].dto.tenant, states[j].posts[q].dto.key), b);
  }

  /**
   * Any two replies that name an entry, at any two moments of a run, name the same entry exactly when their
   * requests carry the same tenant and the same key; and that entry is in the journal of that tenant.
   */
  lemma RepliesAgree(cfg: Config, states: seq<State>, steps: seq<Step>, i: nat, j: nat, p: PostId, q: PostId,
          a: EntryId, b: EntryId)
    requires Run(cfg, states, steps) && i < |states| && j < |states|
    requires Answered(states[i], p, a) && Answered(states[j], q, b)
    ensures var x, y := states[i].posts[p].dto, states[j].posts[q].dto;
            a == b <==> x.tenant == y.tenant && x.key == y.key
    ensures a in states[i].entries && states[i].entries[a].tenant == states[i].posts[p].dto.tenant
  {
    if i <= j {
      RepliesInOrder(cfg, states, steps, i, j, p, q, a, b);
    } else {
      RepliesInOrder(cfg, states, steps, j, i, q, p, b, a);
    }
  }

  ghost predicate CommitsKey(s: State, step: Step, tenant: TenantId, key: string)
  {
    && step.Post? && Commits(s, step.p, step.act)
    && s.posts[step.p].dto.tenant == tenant && s.posts[step.p].dto.key == key
  }

  /** Racing posts on one key commit at most one entry in a whole run. */
  lemma CommittedOnce(cfg: Config, states: seq<State>, steps: seq<Step>, i: nat, j: nat, tenant: TenantId, key: string,
          tenant': TenantId, key': string)
    requires Run(cfg, states, steps) && i < j < |steps|
    requires CommitsKey(states[i], steps[i], tenant, key) && CommitsKey(states[j], steps[j], tenant', key')
    ensures tenant != tenant' || key != key'
  {
    assert Next(cfg, states[i], steps[i], states[i + 1]);
    assert IdemKey(tenant, key) in states[i + 1].keys;
    RunExtends(cfg, states, steps, i + 1, j);
    RunInv(cfg, states, steps, j);
    assert TxOk(cfg, states[j], states[j].posts[steps[j].p]);
  }

  /** A conflict is only ever answered for a key that has an entry, then and from then on. */
  lemma {:induction false} ConflictMeansTaken(cfg: Config, states: seq<State>, steps: seq<Step>, i: nat, p: PostId)
    requires Run(cfg, states, steps) && i < |states|
    requires p in states[i].posts && states[i].posts[p].Done? && states[i].posts[p].reply == Conflict
    ensures IdemKey(states[i].posts[p].dto.tenant, states[i].posts[p].dto.key) in states[i].keys
    decreases i
  {
    if i > 0 {
      var s, s' := states[i - 1], states[i];
      assert Next(cfg, s, steps[i - 1], s');
      RunExtends(cfg, states, steps, i - 1, i);
      if p in s.posts && s.posts[p].Done? {
        ConflictMeansTaken(cfg, states, steps, i - 1, p);
      } else {
        OnlyTakenConflicts(cfg, s, steps[i - 1], s', p);
      }
    }
  }

  lemma OnlyTakenConflicts(cfg: Config, s: State, step: Step, s': State, p: PostId)
    requires Next(cfg, s, step, s') && p in s'.posts && s'.posts[p].Done? && s'.posts[p].reply == Conflict
    requires !(p in s.posts && s.posts[p].Done?)
    ensures IdemKey(s'.posts[p].dto.tenant, s'.posts[p].dto.key) in s.keys
  {
  }

  /** A stored line says what the request said: side, amount and currency, on the tenant's account with that code. */
  predicate SaysLine(chart: Chart, tenant: TenantId, dto: LineDto, line: Line)
  {
    && line.tenant == tenant && line.direction == dto.direction && line.amount == dto.amount
        && line.currency == dto.currency
    && line.account in chart.accounts && chart.accounts[line.account] == Account(tenant, dto.code)
  }

  predicate SaysEntry(chart: Chart, dto: PostDto, entry: Entry)
  {
    && entry.tenant == dto.tenant && |entry.lines| == |dto.lines|
    && forall i :: 0 <= i < |dto.lines| ==> SaysLine(chart, dto.tenant, dto.lines[i], entry.lines[i])
  }

  lemma EnqueuedSaysRequest(cfg: Config, s: State, tx: PostTx)
    requires ConfigOk(cfg) && TxOk(cfg, s, tx) && tx.Enqueued?
    ensures SaysEntry(cfg.chart, tx.dto, Entry(tx.dto.tenant, tx.lines))
  {
    forall i | 0 <= i < |tx.dto.lines|
      ensures SaysLine(cfg.chart, tx.dto.tenant, tx.dto.lines[i], tx.lines[i])
    {
      assert LineBuilt(cfg.chart, tx.dto, tx.lines, i);
    }
  }

  /** What a request commits is what it asked for, line by line, and stays that way for the rest of the run. */
  lemma StoredAsRequested(cfg: Config, states: seq<State>, steps: seq<Step>, i: nat, j: nat, p: PostId, act: PostAction)
    requires Run(cfg, states, steps) && i < j < |states|
    requires steps[i] == Step.Post(p, act) && Commits(states[i], p, act)
    ensures var tx := states[i].posts[p];
            && tx.entry in states[j].entries && SaysEntry(cfg.chart, tx.dto, states[j].entries[tx.entry])
            && IdemKey(tx.dto.tenant, tx.dto.key) in states[j].keys
            && states[j].keys[IdemKey(tx.dto.tenant, tx.dto.key)] == tx.entry
  {
    var tx := states[i].posts[p];
    RunInv(cfg, states, steps, i);
    assert TxOk(cfg, states[i], tx);
    EnqueuedSaysRequest(cfg, states[i], tx);
    assert Next(cfg, states[i], steps[i], states[i + 1]);
    assert states[i + 1].entries[tx.entry] == Entry(tx.dto.tenant, tx.lines);
    RunExtends(cfg, states, steps, i + 1, j);
  }

  /**
   * The deferred balance trigger is redundant for requests that come through postEntry: in no state
   * of any run does a transaction about to commit hold unbalanced lines.
   */
  lemma TriggerIsRedundant(cfg: Config, states: seq<State>, steps: seq<Step>, i: nat, p: PostId)
    requires Run(cfg, states, steps) && i < |states|
    requires p in states[i].posts && states[i].posts[p].Enqueued?
    ensures LinesBalanced(states[i].posts[p].lines) && Commits(states[i], p, Commit(true))
  {
    RunInv(cfg, states, steps, i);
    PostingProof.TriggerNeverFires(cfg, states[i], states[i].posts[p]);
  }
}
