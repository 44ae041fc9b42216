/** The gateway's allow-list: how the configured rules become stored entries, and how
    an inbound message is judged against them. Message definitions, canons and the
    parameter matcher belong to the host; they arrive here as values and a predicate. */
module AllowList {
  import opened Js

  /** An inbound message, after the transport directives are cleaned off. */
  type Msg = map<string, Json>

  /** A configured rule value: `true`/`false`, or a list of parameter patterns. */
  datatype RuleValue = Flag(on: bool) | Patterns(pats: seq<string>)

  /** What the allow table stores for a canon: allow any parameters, a stored `false`,
      or a matcher built from the parameter patterns. */
  datatype Allowance = AllowAll | Deny | Matcher(pats: seq<string>)

  /** The host's definition that a message resolves to: its canon and its pattern. */
  datatype MsgDef = MsgDef(canon: string, pattern: string)

  /** The judgement on a message; a refusal keeps the falsy `allowMsg` value the
      handler reports in debug mode (`false`, or the matcher's `null`). */
  datatype Verdict = Allowed | Refused(allowMsg: Json)

  /** One rule: `true` and an empty pattern list both allow everything; a non-empty
      list becomes a matcher over exactly those patterns; `false` stays a denial. */
  function RuleFor(v: RuleValue): (a: Allowance)
    ensures a == AllowAll <==> v == Flag(true) || v == Patterns([])
    ensures a == Deny <==> v == Flag(false)
    ensures a.Matcher? <==> v.Patterns? && v.pats != []
    ensures a.Matcher? ==> a.pats == v.pats
  {
    match v
    case Flag(on) => if on then AllowAll else Deny
    case Patterns(pats) => if 0 < |pats| then Matcher(pats) else AllowAll
  }

  /** The allow table: one entry per configured canon. */
  function BuildTable(allow: map<string, RuleValue>): (table: map<string, Allowance>)
    ensures table.Keys == allow.Keys
    ensures forall canon :: canon in table ==> table[canon] == RuleFor(allow[canon])
  {
    map canon | canon in allow :: RuleFor(allow[canon])
  }

  /** Whether a stored entry lets `msg` through: an allow-all entry does, a matcher does
      when one of its patterns accepts the whole message, a denial never does. */
  predicate Admits(a: Allowance, msg: Msg, accepts: (string, Msg) -> bool) {
    match a
    case AllowAll => true
    case Deny => false
    case Matcher(pats) => exists p :: p in pats && accepts(p, msg)
  }

  /** The host's lookup of a canon in the allow table (`allowed.find`). Besides the
      canon's own entry it may return the entry of a configured pattern that the canon
      extends or matches, so it is a parameter. */
  type Lookup = (map<string, Allowance>, string) -> Option<Allowance>

  /** The lookup finds, if anything, an entry the table stores under some configured
      pattern: it never invents a rule. */
  predicate ReturnsStored(lookup: Lookup, table: map<string, Allowance>, canon: string) {
    lookup(table, canon).Some? ==> exists c :: c in table && lookup(table, canon) == Some(table[c])
  }

  /** The entry the handler works with: the lookup of the canon of the definition the
      message resolves to (never of the message itself), or none without a definition. */
  function EntryFor(def: Option<MsgDef>, table: map<string, Allowance>, lookup: Lookup): Option<Allowance> {
    if def.Some? then lookup(table, def.value.canon) else None
  }

  /** The decision of the handler: apply the entry found for the message's definition. */
  function Decide(def: Option<MsgDef>, table: map<string, Allowance>, lookup: Lookup, msg: Msg,
                  accepts: (string, Msg) -> bool): (v: Verdict)
    ensures v.Allowed? <==>
      def.Some? && lookup(table, def.value.canon).Some? && Admits(lookup(table, def.value.canon).value, msg, accepts)
    ensures v.Refused? ==>
      v.allowMsg == (if def.Some? && lookup(table, def.value.canon).Some? && lookup(table, def.value.canon).value.Matcher?
                     then Null else Bool(false))
  {
    match EntryFor(def, table, lookup)
    case None => Refused(Bool(false))
    case Some(AllowAll) => Allowed
    case Some(Deny) => Refused(Bool(false))
    case Some(Matcher(pats)) =>
      if exists p :: p in pats && accepts(p, msg) then Allowed else Refused(Null)
  }

  /** A configured value lets `msg` through: `true`, an empty list, or a list one of whose
      patterns accepts the message. */
  predicate Configured(v: RuleValue, msg: Msg, accepts: (string, Msg) -> bool) {
    match v
    case Flag(on) => on
    case Patterns(pats) => pats == [] || exists p :: p in pats && accepts(p, msg)
  }

  /** The stored rule admits exactly what its configured value lets through. */
  lemma RuleAdmitsConfigured(v: RuleValue, msg: Msg, accepts: (string, Msg) -> bool)
    ensures Admits(RuleFor(v), msg, accepts) <==> Configured(v, msg, accepts)
  {
  }

  /** The whole rule from configuration to decision: a message passes exactly when the
      lookup of its definition's canon finds the entry of some configured pattern whose
      value is `true`, an empty list, or a list one of whose patterns accepts the
      message. */
  lemma AllowedIffConfigured(allow: map<string, RuleValue>, def: Option<MsgDef>, lookup: Lookup, msg: Msg,
                             accepts: (string, Msg) -> bool)
    requires def.Some? ==> ReturnsStored(lookup, BuildTable(allow), def.value.canon)
    ensures Decide(def, BuildTable(allow), lookup, msg, accepts).Allowed? <==>
      def.Some? &&
      exists c :: c in allow && lookup(BuildTable(allow), def.value.canon) == Some(RuleFor(allow[c]))
                  && Configured(allow[c], msg, accepts)
  {
  }

  /** No sneaking in: a message that resolves to no definition, or whose definition's
      canon the lookup finds no entry for, is refused whatever else it carries, even
      when it also fits some other allowed pattern. */
  lemma RefusedWithoutEntry(def: Option<MsgDef>, table: map<string, Allowance>, lookup: Lookup, msg: Msg,
                            accepts: (string, Msg) -> bool)
    requires def.None? || lookup(table, def.value.canon).None?
    ensures Decide(def, table, lookup, msg, accepts) == Refused(Bool(false))
  {
  }

  /** Under a matcher, two messages that resolve to the same definition can be judged
      differently: extra parameters are checked, not only the canon. */
  lemma MatcherChecksParameters(def: MsgDef, table: map<string, Allowance>, lookup: Lookup, p: string,
                                narrow: Msg, wide: Msg, accepts: (string, Msg) -> bool)
    requires lookup(table, def.canon) == Some(Matcher([p]))
    requires accepts(p, narrow) && !accepts(p, wide)
    ensures Decide(Some(def), table, lookup, narrow, accepts) == Allowed
    ensures Decide(Some(def), table, lookup, wide, accepts) == Refused(Null)
  {
  }
}
