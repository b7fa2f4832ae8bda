/** The cache of built providers and what keeps it true to the database and the secrets
    (orchestrator/provider_registry.go). Factories and built providers are opaque. */
module ProviderCache {
  import opened Text
  import Runs

  type Alias = string
  type Name = string

  /** A row of the provider table; `spec` holds the columns that only factories look at. */
  datatype Row = Row(secretName: Name, isDefault: bool, spec: string)

  type Rows = map<Alias, Row>

  /** The secrets provider, if there is one, as what its `Get` finds. */
  type Secrets = Option<map<Name, string>>

  /** The API key for a row; None if its secret cannot be read. */
  function ApiKey(secrets: Secrets, row: Row): Option<string> {
    if row.secretName == "" || secrets.None? then Some("")
    else if row.secretName in secrets.value then Some(secrets.value[row.secretName])
    else None
  }

  /** `factory` yields None for an unknown type and for a factory's error. */
  function Build<P>(factory: (Row, string) -> Option<P>, secrets: Secrets, row: Row): Option<P> {
    match ApiKey(secrets, row)
    case None => None
    case Some(key) => factory(row, key)
  }

  /** A provider is built if the factory yields one for the row and its key: the secret the row names,
      or no key if it names none or there is nowhere to look; a secret that cannot be read yields none. */
  lemma BuildMeans<P>(factory: (Row, string) -> Option<P>, secrets: Secrets, row: Row, p: P)
    ensures Build(factory, secrets, row) == Some(p) <==>
      if row.secretName != "" && secrets.Some?
      then row.secretName in secrets.value && factory(row, secrets.value[row.secretName]) == Some(p)
      else factory(row, "") == Some(p)
  {
  }

  // ---------------------------------------------------------------- the registry

  class ProviderRegistry<P(==)> {
    const factory: (Row, string) -> Option<P>
    var secrets: Secrets
    var cache: map<Alias, P>

    constructor (factory: (Row, string) -> Option<P>, secrets: Secrets)
      ensures this.factory == factory && this.secrets == secrets && cache == map[]
    {
      this.factory, this.secrets, this.cache := factory, secrets, map[];
    }

    /** The part of createAndCache that one caller per alias runs. */
    method CreateAndCache(alias: Alias, row: Row) returns (p: Option<P>)
      modifies `cache
      ensures p == if alias in old(cache) then Some(old(cache)[alias]) else Build(factory, secrets, row)
      ensures cache == if alias in old(cache) || p.None? then old(cache) else old(cache)[alias := p.value]
    {
      if alias in cache {
        return Some(cache[alias]);
      }
      var apiKey := "";
      if row.secretName != "" && secrets.Some? {
        if row.secretName !in secrets.value {
          return None;
        }
        apiKey := secrets.value[row.secretName];
      }
      p := factory(row, apiKey);
      if p.Some? {
        cache := cache[alias := p.value];
      }
    }

    method GetByAlias(rows: Rows, alias: Alias) returns (p: Option<P>)
      modifies `cache
      ensures p == if alias in old(cache) then Some(old(cache)[alias])
                   else if alias in rows then Build(factory, secrets, rows[alias]) else None
      ensures cache == if alias in old(cache) || p.None? then old(cache) else old(cache)[alias := p.value]
    {
      if alias in cache {
        return Some(cache[alias]);
      }
      if alias !in rows {
        return None;
      }
      p := CreateAndCache(alias, rows[alias]);
    }

    /** `first` is the default row that the query happens to return, if there is one. */
    method GetDefault(rows: Rows, first: Option<Alias>) returns (p: Option<P>)
      requires first.Some? ==> first.value in rows && rows[first.value].isDefault
      modifies `cache
      ensures first.None? ==> p.None? && cache == old(cache)
      ensures first.Some? ==>
        && p == (if first.value in old(cache) then Some(old(cache)[first.value])
                 else Build(factory, secrets, rows[first.value]))
        && cache == (if first.value in old(cache) || p.None? then old(cache) else old(cache)[first.value := p.value])
    {
      if first.None? {
        return None;
      }
      p := CreateAndCache(first.value, rows[first.value]);
    }

    method UpdateSecretsProvider(secrets: Secrets)
      modifies this
      ensures this.secrets == secrets && cache == map[]
    {
      this.secrets := secrets;
      cache := map[];
    }

    method InvalidateCache()
      modifies `cache
      ensures cache == map[]
    {
      cache := map[];
    }

    method InvalidateCacheAlias(alias: Alias)
      modifies `cache
      ensures cache == old(cache) - {alias}
    {
      cache := cache - {alias};
    }

    method InvalidateCacheBySecret(rows: Rows, name: Name)
      modifies `cache
      ensures cache == old(cache) - Using(rows, name)
    {
      var todo := Using(rows, name);
      while todo != {}
        invariant todo <= Using(rows, name) && cache == old(cache) - (Using(rows, name) - todo)
      {
        var alias :| alias in todo;
        cache := cache - {alias};
        todo := todo - {alias};
      }
    }
  }

  function Using(rows: Rows, name: Name): set<Alias> {
    set alias | alias in rows && rows[alias].secretName == name
  }

  // ---------------------------------------------------------------- interleavings

  type Caller = nat

  /** Where a call stands: past a cache miss, with the row it loaded, leading the flight for its alias
      with what the flight will return (`found` if that came from the cache, None for an error), waiting
      for the leader, or back. What is `stale` was made from something that has changed since. */
  datatype Local<P> =
    | Missed(alias: Alias)
    | Loaded(alias: Alias, row: Row, stale: bool)
    | Leading(alias: Alias, outcome: Option<P>, found: bool, stale: bool)
    | Joining(alias: Alias)
    | Back(alias: Alias, result: Option<P>)

  /** `dirty` are the aliases whose cached provider may be out of date. */
  datatype State<P> = State(
    factory: (Row, string) -> Option<P>, rows: Rows, secrets: Secrets, cache: map<Alias, P>,
    locals: map<Caller, Local<P>>, dirty: set<Alias>)
  {
    function Fresh(alias: Alias): Option<P> {
      if alias in rows then Build(factory, secrets, rows[alias]) else None
    }
  }

  datatype Step =
    | Get(t: Caller, alias: Alias)
    | Load(t: Caller)
    | Default(t: Caller, first: Option<Alias>)
    | Enter(t: Caller)
    | Finish(t: Caller)
    | EditRow(alias: Alias, row: Option<Row>)
    | SetSecret(name: Name, value: Option<string>)
    | SwapSecrets(secrets: Secrets)
    | Invalidate(alias: Alias)
    | InvalidateAll
    | InvalidateBySecret(name: Name)

  predicate Enabled<P>(s: State<P>, step: Step) {
    match step
    case Get(t, _) => t !in s.locals
    case Load(t) => t in s.locals && s.locals[t].Missed?
    case Default(t, first) =>
      t !in s.locals && (first.Some? ==> first.value in s.rows && s.rows[first.value].isDefault)
    case Enter(t) => t in s.locals && s.locals[t].Loaded?
    case Finish(t) => t in s.locals && s.locals[t].Leading?
    case _ => true
  }

  function Aged<P>(l: Local<P>, rowsOf: set<Alias>, builtFor: set<Alias>): Local<P> {
    match l
    case Loaded(alias, row, stale) => Loaded(alias, row, stale || alias in rowsOf)
    case Leading(alias, outcome, found, stale) =>
      Leading(alias, outcome, found, stale || alias in rowsOf || alias in builtFor)
    case _ => l
  }

  function Age<P>(locals: map<Caller, Local<P>>, rowsOf: set<Alias>, builtFor: set<Alias>): map<Caller, Local<P>> {
    map t | t in locals :: Aged(locals[t], rowsOf, builtFor)
  }

  function Led<P>(locals: map<Caller, Local<P>>): set<Alias> {
    set t | t in locals && locals[t].Leading? :: locals[t].alias
  }

  /** The leader and everyone waiting for the flight of `alias` get its outcome, be it an error. */
  function Released<P>(locals: map<Caller, Local<P>>, alias: Alias, outcome: Option<P>): map<Caller, Local<P>> {
    map t | t in locals ::
      if (locals[t].Joining? || locals[t].Leading?) && locals[t].alias == alias then Back(alias, outcome) else locals[t]
  }

  function Written(secrets: Secrets, name: Name, value: Option<string>): Secrets {
    match secrets
    case None => None
    case Some(m) => Some(if value.Some? then m[name := value.value] else m - {name})
  }

  function Next<P>(s: State<P>, step: Step): State<P>
    requires Enabled(s, step)
  {
    match step
    case Get(t, alias) =>
      s.(locals := s.locals[t := if alias in s.cache then Back(alias, Some(s.cache[alias])) else Missed(alias)])
    case Load(t) =>
      var alias := s.locals[t].alias;
      s.(locals := s.locals[t := if alias in s.rows then Loaded(alias, s.rows[alias], false) else Back(alias, None)])
    case Default(t, first) =>
      s.(locals := s.locals[t :=
        if first.Some? then Loaded(first.value, s.rows[first.value], false) else Back("", None)])
    case Enter(t) =>
      var Loaded(alias, row, stale) := s.locals[t];
      s.(locals := s.locals[t :=
        if alias in Led(s.locals) then Joining(alias)
        else if alias in s.cache then Leading(alias, Some(s.cache[alias]), true, alias in s.dirty)
        else Leading(alias, Build(s.factory, s.secrets, row), false, stale)])
    case Finish(t) =>
      var Leading(alias, outcome, found, stale) := s.locals[t];
      var s' := s.(locals := Released(s.locals, alias, outcome));
      if found || outcome.None? then s'
      else s'.(cache := s.cache[alias := outcome.value], dirty := if stale then s.dirty + {alias} else s.dirty - {alias})
    case EditRow(alias, row) =>
      s.(rows := if row.Some? then s.rows[alias := row.value] else s.rows - {alias},
         locals := Age(s.locals, {alias}, {}), dirty := s.dirty + {alias})
    case SetSecret(name, value) =>
      s.(secrets := Written(s.secrets, name, value), locals := Age(s.locals, {}, Using(s.rows, name)),
         dirty := s.dirty + Using(s.rows, name))
    case SwapSecrets(secrets) =>
      s.(secrets := secrets, cache := map[], locals := Age(s.locals, {}, Led(s.locals)), dirty := {})
    case Invalidate(alias) => s.(cache := s.cache - {alias}, dirty := s.dirty - {alias})
    case InvalidateAll => s.(cache := map[], dirty := {})
    case InvalidateBySecret(name) =>
      s.(cache := s.cache - Using(s.rows, name), dirty := s.dirty - Using(s.rows, name))
  }

  function Try<P>(s: State<P>, step: Step): Option<State<P>> {
    if Enabled(s, step) then Some(Next(s, step)) else None
  }

  /** The state after a run, if each of its steps was enabled in turn. */
  function After<P>(s: State<P>, run: seq<Step>): Option<State<P>> {
    Runs.After(Try<P>, s, run)
  }

  // ---------------------------------------------------------------- the cache tells the truth

  /** What is cached and not dirty is what the factory would build now, and so is what a leader holds,
      errors included, unless it is stale; a loaded row is the stored one unless it is stale. */
  ghost predicate Inv<P>(s: State<P>) {
    && (forall alias :: alias in s.cache && alias !in s.dirty ==> s.Fresh(alias) == Some(s.cache[alias]))
    && (forall t :: t in s.locals ==> Sound(s, s.locals[t]))
  }

  ghost predicate Sound<P>(s: State<P>, l: Local<P>) {
    match l
    case Loaded(alias, row, stale) => stale || (alias in s.rows && s.rows[alias] == row)
    case Leading(alias, outcome, found, stale) => stale || s.Fresh(alias) == outcome
    case _ => true
  }

  predicate Leads<P>(locals: map<Caller, Local<P>>, t: Caller, alias: Alias) {
    t in locals && locals[t].Leading? && locals[t].alias == alias
  }

  /** One caller at a time creates for an alias, and whoever waits for an alias waits for such a caller. */
  ghost predicate SingleFlight<P>(s: State<P>) {
    && (forall t, u, alias :: Leads(s.locals, t, alias) && Leads(s.locals, u, alias) ==> t == u)
    && (forall t :: t in s.locals && s.locals[t].Joining? ==> s.locals[t].alias in Led(s.locals))
  }

  /** Rows that do not use a secret do not feel a change of it. */
  lemma OtherSecrets<P>(s: State<P>, name: Name, value: Option<string>, alias: Alias)
    requires alias !in Using(s.rows, name)
    ensures s.(secrets := Written(s.secrets, name, value)).Fresh(alias) == s.Fresh(alias)
  {
    if alias in s.rows {
      var row := s.rows[alias];
      assert row.secretName != name;
      assert ApiKey(Written(s.secrets, name, value), row) == ApiKey(s.secrets, row);
    }
  }

  lemma InvNext<P>(s: State<P>, step: Step)
    requires Inv(s) && Enabled(s, step)
    ensures Inv(Next(s, step))
  {
    var s' := Next(s, step);
    match step
    case SetSecret(name, value) =>
      forall alias | alias !in Using(s.rows, name) ensures s'.Fresh(alias) == s.Fresh(alias) {
        OtherSecrets(s, name, value, alias);
      }
    case _ =>
  }

  lemma EveryRunKeeps<P(!new)>(s: State<P>, run: seq<Step>)
    requires Inv(s) && After(s, run).Some?
    ensures Inv(After(s, run).value)
  {
    forall u: State<P>, step | Inv(u) && Try(u, step).Some? ensures Inv(Try(u, step).value) {
      InvNext(u, step);
    }
    Runs.Keeps(Try<P>, (u: State<P>) => Inv(u), s, run);
  }

  /** A caller leads after a step only if it led before or has just found that no one did. */
  lemma LeadsNext<P>(s: State<P>, step: Step, t: Caller, alias: Alias)
    requires Enabled(s, step)
    ensures Leads(Next(s, step).locals, t, alias) ==>
              Leads(s.locals, t, alias) || (step == Enter(t) && alias !in Led(s.locals))
    ensures Leads(s.locals, t, alias) && (step.Finish? ==> s.locals[step.t].alias != alias) ==>
              Leads(Next(s, step).locals, t, alias)
  {
  }

  lemma LedIfLeads<P>(locals: map<Caller, Local<P>>, alias: Alias)
    ensures alias in Led(locals) <==> exists t :: Leads(locals, t, alias)
  {
    if alias in Led(locals) {
      var t :| t in locals && locals[t].Leading? && locals[t].alias == alias;
      assert Leads(locals, t, alias);
    }
  }

  lemma SingleFlightNext<P>(s: State<P>, step: Step)
    requires SingleFlight(s) && Enabled(s, step)
    ensures SingleFlight(Next(s, step))
  {
    var s' := Next(s, step);
    forall t, u, alias | Leads(s'.locals, t, alias) && Leads(s'.locals, u, alias) ensures t == u {
      hide Next;
      LeadsNext(s, step, t, alias);
      LeadsNext(s, step, u, alias);
      LedIfLeads(s.locals, alias);
    }
    forall t | t in s'.locals && s'.locals[t].Joining? ensures s'.locals[t].alias in Led(s'.locals) {
      var alias := s'.locals[t].alias;
      assert alias in Led(s.locals) && (step.Finish? ==> s.locals[step.t].alias != alias);
      hide Next;
      LedIfLeads(s.locals, alias);
      var u :| Leads(s.locals, u, alias);
      LeadsNext(s, step, u, alias);
      LedIfLeads(s'.locals, alias);
    }
  }

  lemma CreationIsSingleFlight<P(!new)>(s: State<P>, run: seq<Step>)
    requires SingleFlight(s) && After(s, run).Some?
    ensures SingleFlight(After(s, run).value)
  {
    forall u: State<P>, step | SingleFlight(u) && Try(u, step).Some? ensures SingleFlight(Try(u, step).value) {
      SingleFlightNext(u, step);
    }
    Runs.Keeps(Try<P>, (u: State<P>) => SingleFlight(u), s, run);
  }

  predicate IsBack<P>(locals: map<Caller, Local<P>>, t: Caller) {
    t in locals && locals[t].Back?
  }

  /** The answer may be out of date: it was cached for an alias changed without being invalidated, or
      what the flight returns was made from something that has changed since. */
  predicate Excused<P>(s: State<P>, step: Step) {
    match step
    case Get(_, alias) => alias in s.dirty
    case Finish(t) => t in s.locals && s.locals[t].Leading? && s.locals[t].stale
    case _ => false
  }

  /** Whatever the interleaving, a call answers with what the factory would build at that moment, or
      with its error, be it the leader of its flight or one who waited, unless that is excused. */
  lemma AnswersAreFresh<P(!new)>(start: State<P>, run: seq<Step>, step: Step, t: Caller)
    requires start.cache == map[] && start.locals == map[] && After(start, run).Some?
    requires var s := After(start, run).value;
      && Enabled(s, step) && !step.Default? && !Excused(s, step)
      && !IsBack(s.locals, t) && IsBack(Next(s, step).locals, t)
    ensures var s := After(start, run).value;
      Next(s, step).locals[t].result == s.Fresh(Next(s, step).locals[t].alias)
  {
    EveryRunKeeps(start, run);
  }

  // ---------------------------------------------------------------- operations that run alone

  /** No call is under way and nothing waits to be invalidated. */
  ghost predicate Quiet<P>(s: State<P>) {
    s.dirty == {} && forall t :: t in s.locals ==> s.locals[t].Back?
  }

  /** Operations that follow the rules: an edit with the invalidation of its alias or of everything, a
      change of a secret with the invalidation of its users, a swap of the secrets provider. */
  datatype Operation =
    | GetByAlias(t: Caller, alias: Alias)
    | GetDefault(t: Caller, first: Alias)
    | Edit(alias: Alias, row: Option<Row>, all: bool)
    | ChangeSecret(name: Name, value: Option<string>)
    | UpdateSecretsProvider(secrets: Secrets)

  predicate Allowed<P>(s: State<P>, op: Operation) {
    match op
    case GetByAlias(t, _) => t !in s.locals
    case GetDefault(t, first) => t !in s.locals && first in s.rows && s.rows[first].isDefault
    case _ => true
  }

  /** A call runs from where it stands to its end. */
  function Complete<P>(s: State<P>, t: Caller): State<P>
    requires t in s.locals
  {
    if !s.locals[t].Loaded? then s
    else
      var entered := Next(s, Enter(t));
      if entered.locals[t].Leading? then Next(entered, Finish(t)) else entered
  }

  function Fetch<P>(s: State<P>, t: Caller): State<P>
    requires t in s.locals
  {
    if s.locals[t].Missed? then Complete(Next(s, Load(t)), t) else s
  }

  function Do<P>(s: State<P>, op: Operation): State<P>
    requires Allowed(s, op)
  {
    match op
    case GetByAlias(t, alias) => Fetch(Next(s, Get(t, alias)), t)
    case GetDefault(t, first) => Complete(Next(s, Default(t, Some(first))), t)
    case Edit(alias, row, all) => Next(Next(s, EditRow(alias, row)), if all then InvalidateAll else Invalidate(alias))
    case ChangeSecret(name, value) => Next(Next(s, SetSecret(name, value)), InvalidateBySecret(name))
    case UpdateSecretsProvider(secrets) => Next(s, SwapSecrets(secrets))
  }

  lemma CompleteKeeps<P>(s: State<P>, t: Caller)
    requires Inv(s) && s.dirty == {} && t in s.locals && s.locals[t].Loaded? && !s.locals[t].stale
    requires forall u :: u in s.locals && u != t ==> s.locals[u].Back?
    ensures Inv(Complete(s, t)) && Quiet(Complete(s, t))
    ensures Complete(s, t).locals[t] == Back(s.locals[t].alias, s.Fresh(s.locals[t].alias))
  {
    var entered := Next(s, Enter(t));
    InvNext(s, Enter(t));
    assert s.locals[t].alias in s.rows && s.rows[s.locals[t].alias] == s.locals[t].row;
    InvNext(entered, Finish(t));
  }

  /** Run alone, the steps of a call do what `ProviderRegistry.GetByAlias` promises. */
  lemma AloneAsInTheRegistry<P>(s: State<P>, t: Caller, alias: Alias)
    requires Quiet(s) && t !in s.locals
    ensures var r := Do(s, GetByAlias(t, alias));
      && r.rows == s.rows && r.secrets == s.secrets
      && r.locals[t] == Back(alias, if alias in s.cache then Some(s.cache[alias]) else s.Fresh(alias))
      && r.cache == if alias in s.cache || s.Fresh(alias).None? then s.cache
                    else s.cache[alias := s.Fresh(alias).value]
  {
    var got := Next(s, Get(t, alias));
    if got.locals[t].Missed? {
      var loaded := Next(got, Load(t));
      assert alias !in Led(loaded.locals);
    }
  }

  /** Run one at a time, operations that follow the rules keep the cache true, and every call answers
      with what the factory would build afresh. */
  lemma OperationsAreFresh<P>(s: State<P>, op: Operation)
    requires Inv(s) && Quiet(s) && Allowed(s, op)
    ensures Inv(Do(s, op)) && Quiet(Do(s, op))
    ensures op.GetByAlias? ==> Do(s, op).locals[op.t] == Back(op.alias, s.Fresh(op.alias))
    ensures op.GetDefault? ==> Do(s, op).locals[op.t] == Back(op.first, s.Fresh(op.first))
  {
    match op
    case GetByAlias(t, alias) =>
      var got := Next(s, Get(t, alias));
      InvNext(s, Get(t, alias));
      if got.locals[t].Missed? {
        InvNext(got, Load(t));
        if alias in s.rows {
          CompleteKeeps(Next(got, Load(t)), t);
        }
      }
    case GetDefault(t, first) =>
      InvNext(s, Default(t, Some(first)));
      CompleteKeeps(Next(s, Default(t, Some(first))), t);
    case Edit(alias, row, all) =>
      InvNext(s, EditRow(alias, row));
      InvNext(Next(s, EditRow(alias, row)), if all then InvalidateAll else Invalidate(alias));
    case ChangeSecret(name, value) =>
      InvNext(s, SetSecret(name, value));
      InvNext(Next(s, SetSecret(name, value)), InvalidateBySecret(name));
    case UpdateSecretsProvider(secrets) => InvNext(s, SwapSecrets(secrets));
  }

  /** The state after operations run one at a time, if each was allowed in turn. */
  function Ran<P>(s: State<P>, ops: seq<Operation>): Option<State<P>> {
    if ops == [] then Some(s)
    else
      match Ran(s, ops[..|ops| - 1])
      case None => None
      case Some(u) => if Allowed(u, ops[|ops| - 1]) then Some(Do(u, ops[|ops| - 1])) else None
  }

  lemma {:induction false} DisciplineKeepsTheCacheTrue<P>(s: State<P>, ops: seq<Operation>)
    requires s.cache == map[] && s.locals == map[] && s.dirty == {} && Ran(s, ops).Some?
    ensures Inv(Ran(s, ops).value) && Quiet(Ran(s, ops).value)
    ensures forall alias :: alias in Ran(s, ops).value.cache ==>
                              Ran(s, ops).value.Fresh(alias) == Some(Ran(s, ops).value.cache[alias])
  {
    if ops == [] {
    } else {
      DisciplineKeepsTheCacheTrue(s, ops[..|ops| - 1]);
      OperationsAreFresh(Ran(s, ops[..|ops| - 1]).value, ops[|ops| - 1]);
    }
  }

  // ---------------------------------------------------------------- why they must run alone

  function LateFinish(alias: Alias, row: Row): seq<Step> {
    [Get(0, alias), Load(0), Enter(0), EditRow(alias, Some(row)), Invalidate(alias), Finish(0), Get(1, alias)]
  }

  lemma LateFinishStates<P>(s: State<P>, alias: Alias, row: Row, was: P, now: P) returns (states: seq<State<P>>)
    requires s.cache == map[] && s.locals == map[] && s.dirty == {} && alias in s.rows
    requires s.Fresh(alias) == Some(was) && Build(s.factory, s.secrets, row) == Some(now)
    ensures |states| == 8 && states[0] == s
    ensures forall k :: 0 <= k < 7 ==> Try(states[k], LateFinish(alias, row)[k]) == Some(states[k + 1])
    ensures states[7].Fresh(alias) == Some(now)
    ensures 1 in states[7].locals && states[7].locals[1] == Back(alias, Some(was))
  {
    hide Build;
    var s1 := Next(s, Get(0, alias));
    var s2 := Next(s1, Load(0));
    var s3 := Next(s2, Enter(0));
    assert s3.locals[0] == Leading(alias, Some(was), false, false);
    var s4 := Next(s3, EditRow(alias, Some(row)));
    var s5 := Next(s4, Invalidate(alias));
    var s6 := Next(s5, Finish(0));
    var s7 := Next(s6, Get(1, alias));
    states := [s, s1, s2, s3, s4, s5, s6, s7];
  }

  /** An edit that is duly followed by its invalidation, but during a creation: the creation stores what
      it built from the old row, and the next call gets it although the factory would build another. */
  lemma StaleProviderReturns<P>(s: State<P>, alias: Alias, row: Row, was: P, now: P)
    requires s.cache == map[] && s.locals == map[] && s.dirty == {} && alias in s.rows
    requires s.Fresh(alias) == Some(was) && Build(s.factory, s.secrets, row) == Some(now) && was != now
    ensures var end := After(s, LateFinish(alias, row));
      && end.Some? && end.value.Fresh(alias) == Some(now)
      && 1 in end.value.locals && end.value.locals[1] == Back(alias, Some(was))
  {
    var states := LateFinishStates(s, alias, row, was, now);
    Runs.Through(Try<P>, states, LateFinish(alias, row));
  }
}
