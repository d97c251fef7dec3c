/** Every step keeps the invariant of the hand-off protocol. */
module HandoffInvariant {
  import opened Wrappers
  import opened Handoff
  import R = Resume
  import S = Scopes

  /** The local conditions under which a change keeps the invariant. */
  ghost predicate Sound(w: World, c: Change) {
    && SoundIds(w, c)
    && SoundEvent(w, c)
    && SoundRecord(w, c)
    && SoundCommit(w, c)
    && (c.scope.Some? ==> S.WellNamed(c.scope.value.0, c.scope.value.1)
                          && ScopeOk(c.scope.value.0, c.scope.value.1, Apply(w, c)))
    && (c.hook.Some? ==> HookOk(c.hook.value.0, c.hook.value.1, Apply(w, c)))
  }

  /** New attempts are fresh; a claim is the first of its attempt; events are about claimed attempts. */
  ghost predicate SoundIds(w: World, c: Change) {
    && (c.mint.Some? ==> w.nextId <= c.mint.value.0 < w.nextId + c.spent)
    && (c.claim.Some? ==>
          && c.mint.None? && c.event.None? && R.CompleteClaim(c.claim.value) && c.claim.value.key in w.pending
          && var a := c.claim.value.attempt.value;
          a !in w.claims && a in w.owner && w.owner[a] == c.claim.value.key)
    && (c.event.Some? ==> c.event.value.attempt in w.claims)
    && (c.event.Some? && c.event.value.Returned? ==> c.event.value.attempt in w.history.handed)
  }

  ghost predicate SoundEvent(w: World, c: Change) {
    c.event.Some? ==>
      && Allowed(w.history, c.event.value) && EventOk(c.event.value, w.claims)
      && (c.event.value.Returned? ==> c.hook.Some? && w.history.handed[c.event.value.attempt] == c.hook.value.0)
  }

  /** The written record is sound, and nothing the change says is about an attempt of another record. */
  ghost predicate SoundRecord(w: World, c: Change) {
    && (c.file.Some? ==> RecordOk(c.file.value.0, c.file.value.1, Apply(w, c)))
    && (c.claim.Some? ==> c.file.Some? && c.claim.value.key == c.file.value.0)
    && (c.event.Some? && (c.event.value.HandedOff? || c.event.value.Ended? || c.event.value.Dropped?) ==>
          c.file.Some? && c.event.value.attempt in w.owner && w.owner[c.event.value.attempt] == c.file.value.0)
  }

  /** The commit of a record changes exactly with a hand-off that binds a scope. */
  ghost predicate SoundCommit(w: World, c: Change) {
    if c.event.Some? && c.event.value.HandedOff? && c.event.value.commit.Some? then
      && c.file.Some? && c.file.value.0 == c.event.value.key && c.file.value.1.scopeCommit == c.event.value.commit
      && CommitOk(c.file.value.0, c.file.value.1, Apply(w, c))
    else c.file.Some? ==>
      c.file.value.1.scopeCommit == if c.file.value.0 in w.pending then w.pending[c.file.value.0].scopeCommit else None
  }

  lemma LogOrderly(h: History, e: Event)
    requires Orderly(h) && Allowed(h, e)
    ensures Orderly(Log(h, e))
  {
    var log := Log(h, e).log;
    assert log[..|log| - 1] == h.log;
  }

  lemma KeepsIds(w: World, c: Change)
    requires IdsOk(w) && SoundIds(w, c)
    ensures IdsOk(Apply(w, c))
  {
  }

  lemma KeepsRecords(w: World, c: Change)
    requires IdsOk(w) && RecordsOk(w) && SoundIds(w, c) && SoundRecord(w, c)
    ensures RecordsOk(Apply(w, c))
  {
    var w' := Apply(w, c);
    forall k | k in w'.pending
      ensures RecordOk(k, w'.pending[k], w')
    {
      if c.file.None? || k != c.file.value.0 {
        assert RecordOk(k, w.pending[k], w);
        KeepsRecord(w, c, k);
      }
    }
  }

  /** A record that is not written keeps in step with the bookkeeping. */
  lemma KeepsRecord(w: World, c: Change, k: R.Key)
    requires IdsOk(w) && k in w.pending && RecordOk(k, w.pending[k], w) && SoundIds(w, c) && SoundRecord(w, c)
    requires c.file.Some? ==> k != c.file.value.0
    ensures RecordOk(k, w.pending[k], Apply(w, c))
  {
  }

  lemma KeepsHooks(w: World, c: Change)
    requires HooksOk(w) && Sound(w, c)
    ensures HooksOk(Apply(w, c))
  {
    var w' := Apply(w, c);
    forall h | h in w'.hooks
      ensures HookOk(h, w'.hooks[h], w')
    {
      if c.hook.None? || h != c.hook.value.0 {
        assert HookOk(h, w.hooks[h], w);
      }
    }
  }

  lemma KeepsEvents(w: World, c: Change)
    requires EventsOk(w) && SoundIds(w, c) && SoundEvent(w, c)
    ensures EventsOk(Apply(w, c))
  {
    var w' := Apply(w, c);
    forall i | 0 <= i < |w'.history.log|
      ensures EventOk(w'.history.log[i], w'.claims)
    {
      if i < |w.history.log| {
        assert EventOk(w.history.log[i], w.claims);
      }
    }
  }

  lemma KeepsCommits(w: World, c: Change)
    requires CommitsOk(w) && SoundIds(w, c) && SoundCommit(w, c)
    ensures CommitsOk(Apply(w, c))
  {
    var w' := Apply(w, c);
    if c.event.Some? {
      assert w'.history.log[..|w'.history.log| - 1] == w.history.log;
    }
    forall k
      ensures k in w'.pending ==>
        w'.pending[k].scopeCommit == LastCommit(w'.history.log, k) && CommitOk(k, w'.pending[k], w')
      ensures k !in w'.pending ==> LastCommit(w'.history.log, k).None?
    {
      assert k in w.pending ==> CommitOk(k, w.pending[k], w);
    }
  }

  lemma KeepsScopes(w: World, c: Change)
    requires ScopesOk(w) && Sound(w, c)
    ensures ScopesOk(Apply(w, c))
  {
    var w' := Apply(w, c);
    forall k | k in w'.scopes
      ensures S.WellNamed(k, w'.scopes[k]) && ScopeOk(k, w'.scopes[k], w')
    {
      if c.scope.None? || k != c.scope.value.0 {
        assert S.WellNamed(k, w.scopes[k]) && ScopeOk(k, w.scopes[k], w);
      }
    }
  }

  lemma SoundKeeps(w: World, c: Change)
    requires Inv(w) && Sound(w, c)
    ensures Inv(Apply(w, c))
  {
    if c.event.Some? {
      LogOrderly(w.history, c.event.value);
    }
    KeepsIds(w, c);
    KeepsRecords(w, c);
    KeepsHooks(w, c);
    KeepsEvents(w, c);
    KeepsCommits(w, c);
    KeepsScopes(w, c);
  }
}
