/** Encounters, character sheets, journals and command receipts: the rows that four endpoints share. */
module TabletopTables {
  import opened JsonValues
  import opened Outcomes
  import opened TextRules
  import opened WorldState
  import opened Identifiers
  import opened EncounterState

  /** Response classes of the endpoints. */
  datatype Refusal = BadInput | Unauthenticated | NotAllowed | NotFound | Stale | TooBig | Unacceptable | Failed

  // ---- Rows ----

  datatype Item = Item(cardId: string, qty: int, containerId: string)

  /** What changes during play; `None` is a column that was never written. */
  datatype Runtime = Runtime(
    currentHp: int, maxHp: int,
    equipment: Option<Fields>, inventory: Option<seq<Item>>,
    resources: Option<Fields>, maxResources: Option<Fields>,
    effects: Option<seq<Json>>, turnState: Option<Fields>, currency: Option<Fields>)

  /** Runtime columns to overwrite; `None` leaves a column alone. */
  datatype RuntimePatch = RuntimePatch(
    currentHp: Option<int>, maxHp: Option<int>,
    equipment: Option<Fields>, inventory: Option<seq<Item>>,
    resources: Option<Fields>, maxResources: Option<Fields>,
    effects: Option<seq<Json>>, turnState: Option<Fields>, currency: Option<Fields>)

  datatype Metadata = Metadata(systemId: string, rulesetVersion: string, characterType: string, schemaVersion: int)

  /** The draft of a sheet; `rest` holds the columns no rule here reads. */
  datatype Profile = Profile(name: string, avatarUrl: string, armorClass: int, rest: Json)

  datatype Sheet = Sheet(
    owner: Id, metadata: Metadata, profile: Profile, runtime: Runtime, revision: int, encounter: Option<Id>)

  datatype Encounter = Encounter(
    name: string, owner: Id, members: seq<string>, state: Fields, seqNo: int, events: seq<Event>)

  datatype JournalRow = JournalRow(sheetId: Id, kind: string, payload: Fields)

  datatype ParticipantResult = ParticipantResult(sheetId: Id, revision: int, sheet: Sheet)

  datatype CommandResponse = CommandResponse(commandId: string, replayed: bool, participants: seq<ParticipantResult>)

  datatype Receipt = Receipt(requestHash: string, response: CommandResponse)

  /** `issued` holds every identifier the database ever generated; none is generated twice. */
  datatype Tabletop = Tabletop(
    encounters: map<Id, Encounter>, sheets: map<Id, Sheet>, journal: seq<JournalRow>,
    receipts: map<(Id, Id), Receipt>, issued: set<Id>)

  // ---- Commands ----

  datatype Ruleset = Ruleset(systemId: string, releaseId: string, contentHash: string, errataVersion: string)

  datatype Participant = Participant(characterId: string, expectedRevision: int, patch: RuntimePatch)

  datatype CommandEvent = CommandEvent(characterId: string, kind: string, payload: Fields)

  datatype CommandRequest = CommandRequest(
    commandId: string, ruleset: Ruleset, participants: seq<Participant>, events: seq<CommandEvent>)

  /**
   * What these endpoints do not define themselves: how non-strings print, the
   * row and event schemas, the reading of effect rows, which accounts are
   * read-only, the hash and the shape of a command body.
   */
  datatype Env = Env(
    show: Json -> string,
    rowsOk: (string, seq<Json>) -> bool,
    eventOk: (string, Fields) -> bool,
    effectRows: seq<Json> -> seq<Json>,
    legacy: Id -> bool,
    hash: string -> string,
    commandShape: Json -> Option<CommandRequest>)

  const MAX_RUNTIME_VALUE := 1_000_000
  const MAX_RUNTIME_ROWS := 128

  /** An integral number within the bounds. */
  predicate BoundedInteger(v: Json, low: int, high: int) {
    v.Num? && low <= v.n <= high
  }

  predicate IsNumber(v: Json) {
    v.Num? || v.Frac?
  }

  /** Conversion to an integer drops the fraction. */
  function Truncated(v: Json): (n: int)
    ensures v.Num? ==> n == v.n
  {
    match v
    case Num(n) => n
    case Frac(r) => if r >= 0.0 then r.Floor else -((-r).Floor)
    case _ => 0
  }

  /** Overwrites the columns a patch names. */
  function Overlay(r: Runtime, p: RuntimePatch): Runtime {
    Runtime(
      if p.currentHp.Some? then p.currentHp.value else r.currentHp,
      if p.maxHp.Some? then p.maxHp.value else r.maxHp,
      if p.equipment.Some? then p.equipment else r.equipment,
      if p.inventory.Some? then p.inventory else r.inventory,
      if p.resources.Some? then p.resources else r.resources,
      if p.maxResources.Some? then p.maxResources else r.maxResources,
      if p.effects.Some? then p.effects else r.effects,
      if p.turnState.Some? then p.turnState else r.turnState,
      if p.currency.Some? then p.currency else r.currency)
  }

  const NO_PATCH := RuntimePatch(None, None, None, None, None, None, None, None, None)

  /** A missing map reads as the empty one. */
  function OrEmpty(m: Option<Fields>): Fields {
    if m.Some? then m.value else map[]
  }

  const TEMP_KEY := "temp_hp"

  /** The temporary hit points of a sheet; anything that is not a number counts as zero. */
  function TempHp(turnState: Option<Fields>): (v: Json)
    ensures IsNumber(v)
  {
    var v := Field(OrEmpty(turnState), TEMP_KEY);
    if IsNumber(v) then v else Num(0)
  }
}
