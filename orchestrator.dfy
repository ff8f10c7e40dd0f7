// The orchestrator's request pipeline: the security screen on the user's
// message, the conversation context with its bounded history, intent
// classification with its confidence fallback, and the dispatch of an
// intent to a built-in handler or to one of the four specialised agents.
module Orchestrator {
  import opened Wrappers
  import opened Text
  import opened Json
  import Security

  // ---------------------------------------------------------------------
  // Configuration defaults
  // ---------------------------------------------------------------------

  const RateLimitRequests: int := 100
  const RateLimitWindow: int := 3600
  const MaxMessageHistory: int := 50
  const ConfidenceThreshold: real := 0.7

  /** The keys sanitize_response removes at every depth. */
  const SensitiveFields: set<string> := {"password", "token", "secret", "key", "authorization", "jwt"}

  /** The orchestrator's in-memory rate limiter with its default limits. */
  method NewRateLimiter() returns (limiter: Security.SlidingWindowLimiter)
    ensures fresh(limiter) && limiter.Valid() && limiter.store == map[]
    ensures limiter.window == RateLimitWindow && limiter.maxRequests == RateLimitRequests
  {
    limiter := new Security.SlidingWindowLimiter(RateLimitWindow, RateLimitRequests);
  }

  /** sanitize_response with the orchestrator's sensitive keys. */
  function SanitizeResponse(v: Value): (r: Value)
    ensures Security.NoSensitiveKeys(r, SensitiveFields)
    ensures Security.NoSensitiveKeys(v, SensitiveFields) ==> r == v
  {
    Security.SanitizeRemovesSensitive(v, SensitiveFields);
    var r := Security.Sanitize(v, SensitiveFields);
    if Security.NoSensitiveKeys(v, SensitiveFields) then (Security.SanitizeKeepsClean(v, SensitiveFields); r) else r
  }

  /** A JWT in any letter case never leaves the orchestrator. */
  lemma JwtNeverLeaks(fields: Record, x: Value)
    requires ("JWT", x) in fields
    ensures ("JWT", Security.Sanitize(x, SensitiveFields)) !in SanitizeResponse(Object(fields)).fields
  {
    assert Lower("JWT") == "jwt";
    var r := SanitizeResponse(Object(fields));
    assert forall i | 0 <= i < |r.fields| :: !Security.Sensitive(r.fields[i].0, SensitiveFields);
  }

  // ---------------------------------------------------------------------
  // _parse_intent_response
  // ---------------------------------------------------------------------

  const RequiredIntentFields: seq<string> := ["intent", "confidence", "reasoning", "detected_keywords"]

  /** The exceptions _parse_intent_response lets out. */
  datatype ParseError = InvalidFormat | MissingField(field: string) | ConfidenceOutOfRange | TypeError

  /** str(e) of a parse error; the wording of Python's own TypeError is given. */
  function ParseErrorText(e: ParseError, typeErrorText: string): string
  {
    match e
    case InvalidFormat => "Invalid LLM response format"
    case MissingField(f) => "Missing required field: " + f
    case ConfidenceOutOfRange => "Confidence must be between 0.0 and 1.0"
    case TypeError => typeErrorText
  }

  /** `key in data` for whatever json.loads produced: a key of a dict, a
    * substring of a string, an element of a list; any other value raises. */
  function Membership(data: Value, key: string): Result<bool, ParseError>
  {
    match data
    case Object(fields) => Success(HasKey(fields, key))
    case Str(s) => Success(Contains(s, key))
    case List(items) => Success(Str(key) in items)
    case _ => Failure(TypeError)
  }

  /** The required-field loop: the first field that is absent (or whose
    * membership test raises) decides the error. */
  function FieldsCheck(data: Value, fields: seq<string>): Result<bool, ParseError>
  {
    if fields == [] then Success(true)
    else match Membership(data, fields[0])
      case Failure(e) => Failure(e)
      case Success(present) => if present then FieldsCheck(data, fields[1..]) else Failure(MissingField(fields[0]))
  }

  /** A number as Python compares it: bools are 0 and 1. */
  function NumberOf(v: Value): Option<real>
  {
    match v
    case Int(i) => Some(i as real)
    case Bool(b) => Some(if b then 1.0 else 0.0)
    case Float(r) => Some(r)
    case _ => None
  }

  /** What _parse_intent_response returns or raises for the parsed reply
    * (None when the reply is not JSON). */
  function IntentParse(parsed: Option<Value>): Result<Value, ParseError>
  {
    match parsed
    case None => Failure(InvalidFormat)
    case Some(data) =>
      match FieldsCheck(data, RequiredIntentFields)
      case Failure(e) => Failure(e)
      case Success(_) =>
        if !data.Object? then Failure(TypeError)
        else match Get(data.fields, "confidence")
          case None => Failure(MissingField("confidence"))
          case Some(c) =>
            match NumberOf(c)
            case None => Failure(TypeError)
            case Some(x) => if 0.0 <= x <= 1.0 then Success(data) else Failure(ConfidenceOutOfRange)
  }

  /** All four fields are keys of the dict. */
  lemma {:induction false} FieldsCheckObject(fields: Record, names: seq<string>)
    ensures FieldsCheck(Object(fields), names).Success? <==> forall i | 0 <= i < |names| :: HasKey(fields, names[i])
  {
    if names != [] {
      FieldsCheckObject(fields, names[1..]);
      assert forall i | 1 <= i < |names| :: names[i] == names[1..][i - 1];
    }
  }

  /** A reply is accepted exactly when it is a JSON object holding intent,
    * confidence, reasoning and detected_keywords with a numeric confidence
    * in [0, 1]; it is then returned unchanged. */
  lemma IntentParseSpec(parsed: Option<Value>)
    ensures IntentParse(parsed).Success? <==>
      && parsed.Some? && parsed.value.Object?
      && (forall i | 0 <= i < 4 :: HasKey(parsed.value.fields, RequiredIntentFields[i]))
      && Get(parsed.value.fields, "confidence").Some?
      && NumberOf(Get(parsed.value.fields, "confidence").value).Some?
      && 0.0 <= NumberOf(Get(parsed.value.fields, "confidence").value).value <= 1.0
    ensures IntentParse(parsed).Success? ==> IntentParse(parsed).value == parsed.value
    ensures parsed.None? ==> IntentParse(parsed) == Failure(InvalidFormat)
  {
    if parsed.Some? && parsed.value.Object? {
      FieldsCheckObject(parsed.value.fields, RequiredIntentFields);
    }
  }

  /** A JSON object without an intent is refused for that field first. */
  lemma MissingIntentFirst(fields: Record)
    requires !HasKey(fields, "intent")
    ensures IntentParse(Some(Object(fields))) == Failure(MissingField("intent"))
  {
  }

  /** _parse_intent_response: the loop over the required fields, then the
    * confidence range check. */
  method ParseIntentResponse(parsed: Option<Value>) returns (r: Result<Value, ParseError>)
    ensures r == IntentParse(parsed)
  {
    if parsed.None? {
      return Failure(InvalidFormat);
    }
    var data := parsed.value;
    var i := 0;
    while i < |RequiredIntentFields|
      invariant 0 <= i <= |RequiredIntentFields|
      invariant FieldsCheck(data, RequiredIntentFields) == FieldsCheck(data, RequiredIntentFields[i..])
    {
      assert RequiredIntentFields[i..][1..] == RequiredIntentFields[i + 1..];
      var m := Membership(data, RequiredIntentFields[i]);
      if m.Failure? {
        return Failure(m.error);
      }
      if !m.value {
        return Failure(MissingField(RequiredIntentFields[i]));
      }
      i := i + 1;
    }
    if !data.Object? {
      return Failure(TypeError);
    }
    var c := Get(data.fields, "confidence");
    if c.None? {
      return Failure(MissingField("confidence"));
    }
    var x := NumberOf(c.value);
    if x.None? {
      return Failure(TypeError);
    }
    if !(0.0 <= x.value <= 1.0) {
      return Failure(ConfidenceOutOfRange);
    }
    return Success(data);
  }

  // ---------------------------------------------------------------------
  // classify_intent
  // ---------------------------------------------------------------------

  /** The classification returned after any failure. */
  function FallbackIntent(reason: string): (r: Value)
    ensures r.Object? && Get(r.fields, "intent") == Some(Str("clarificacion"))
    ensures Get(r.fields, "confidence") == Some(Float(0.0)) && Get(r.fields, "detected_keywords") == Some(List([]))
  {
    var fields := [("intent", Str("clarificacion")), ("confidence", Float(0.0)),
                   ("reasoning", Str("Error en clasificación: " + reason)), ("detected_keywords", List([]))];
    assert "confidence"[0] != "intent"[0];
    assert "detected_keywords"[0] != "intent"[0] && "detected_keywords"[0] != "confidence"[0];
    assert "detected_keywords"[0] != "reasoning"[0];
    assert Get(fields[3..], "detected_keywords") == Some(List([]));
    assert Get(fields[2..], "detected_keywords") == Some(List([]));
    assert Get(fields[1..], "detected_keywords") == Some(List([]));
    Object(fields)
  }

  /** The intent a classification settled on. */
  function IntentOf(v: Value): Option<Value>
  {
    if v.Object? then Get(v.fields, "intent") else None
  }

  /** The classification's confidence as a number. */
  function ConfidenceOf(data: Value): Option<real>
  {
    if data.Object? && Get(data.fields, "confidence").Some? then NumberOf(Get(data.fields, "confidence").value)
    else None
  }

  /** classify_intent for the model's reply: Failure(text) when the LLM call
    * raised, otherwise the parsed reply (None when it is not JSON). A
    * confidence below the threshold turns the intent into a request for
    * clarification and keeps the confidence; any error gives the fallback.
    * fixed2 renders a number with two decimals, thresholdText renders the
    * threshold. The model's intent survives only for a well-formed reply
    * whose confidence reaches the threshold; every failure reports
    * confidence 0.0 and no keywords. */
  function ClassifyIntent(llmReply: Result<Option<Value>, string>, threshold: real,
                          fixed2: real -> string, thresholdText: string, typeErrorText: string): (r: Value)
    ensures r.Object? && IntentOf(r).Some? && ConfidenceOf(r).Some?
    ensures var ok := llmReply.Success? && IntentParse(llmReply.value).Success?;
      && (ok ==> var data := llmReply.value.value;
                 && ConfidenceOf(data).Some?
                 && Get(r.fields, "confidence") == Get(data.fields, "confidence")
                 && IntentOf(r) == (if ConfidenceOf(data).value < threshold then Some(Str("clarificacion"))
                                    else IntentOf(data)))
      && (!ok ==> IntentOf(r) == Some(Str("clarificacion")) && Get(r.fields, "confidence") == Some(Float(0.0))
                  && Get(r.fields, "detected_keywords") == Some(List([])))
  {
    match llmReply
    case Failure(msg) => FallbackIntent(msg)
    case Success(parsed) =>
      IntentParseSpec(parsed);
      match IntentParse(parsed)
      case Failure(e) => FallbackIntent(ParseErrorText(e, typeErrorText))
      case Success(data) =>
        var conf := ConfidenceOf(data).value;
        if conf < threshold then
          var r := Object(SetKey(SetKey(data.fields, "intent", Str("clarificacion")), "reasoning",
                                 Str("Confianza baja (" + fixed2(conf) + " < " + thresholdText + ")")));
          assert "reasoning"[0] != "intent"[0] && "reasoning"[0] != "confidence"[0];
          assert "intent"[0] != "confidence"[0];
          r
        else data
  }

  // ---------------------------------------------------------------------
  // get_conversation_context
  // ---------------------------------------------------------------------

  /** Python's s[start:] for any integer start. */
  function PySuffix<T>(s: seq<T>, start: int): (r: seq<T>)
    ensures r == s[if start < 0 then (if -start >= |s| then 0 else |s| + start) else (if start > |s| then |s| else start)..]
  {
    if start < 0 then (if -start >= |s| then s else s[|s| + start..])
    else if start > |s| then [] else s[start..]
  }

  /** The history kept as written: messages[-max_history:] when there are
    * more than max_history messages. */
  function TruncateAsWritten(messages: seq<Value>, maxHistory: int): seq<Value>
  {
    if |messages| > maxHistory then PySuffix(messages, -maxHistory) else messages
  }

  /** With a history limit of 0, messages[-0:] is the whole list: nothing is
    * dropped and one stored message already exceeds the limit. */
  lemma ZeroHistoryKeepsEverything(m: Value)
    ensures TruncateAsWritten([m, m], 0) == [m, m]
    ensures |TruncateAsWritten([m, m], 0) + [m]| > 0 + 1
  {
  }

  /** The last max(maxHistory, 0) messages. */
  function KeepLast(messages: seq<Value>, maxHistory: int): (r: seq<Value>)
    ensures |r| == if maxHistory <= 0 then 0 else if |messages| < maxHistory then |messages| else maxHistory
    ensures r == messages[|messages| - |r|..]
  {
    if maxHistory <= 0 then []
    else if |messages| > maxHistory then messages[|messages| - maxHistory..]
    else messages
  }

  /** Where the limit is positive the source's slice already keeps the last
    * max_history messages, so the two agree. */
  lemma KeepLastAgrees(messages: seq<Value>, maxHistory: int)
    requires maxHistory > 0
    ensures KeepLast(messages, maxHistory) == TruncateAsWritten(messages, maxHistory)
  {
  }

  /** What reading the session document gave. */
  datatype SessionRead = NoSession | ReadFailed | Session(data: Record)

  datatype Context = Context(recentMessages: seq<Value>, memorySummary: Value, userPreferences: Value,
                             relevanceScore: Value)

  const EmptyContext: Context := Context([], Str(""), Object([]), Float(0.0))

  /** d.get(k, default) */
  function GetOr(r: Record, k: string, default: Value): Value
  {
    match Get(r, k)
    case Some(v) => v
    case None => default
  }

  /** The record added for the message being processed. */
  function CurrentMessage(text: string, timestamp: string): Value
  {
    Object([("text", Str(text)), ("role", Str("user")), ("timestamp", Str(timestamp))])
  }

  /** get_conversation_context: no session, a failed read or a history that
    * is not a list give the empty context; otherwise the last maxHistory
    * stored messages followed by the current one, with the stored summary,
    * preferences and relevance score. */
  function GetConversationContext(read: SessionRead, currentMessage: string, timestamp: string,
                                  maxHistory: int): (c: Context)
    ensures read.Session? && GetOr(read.data, "messages", List([])).List?
            ==> |c.recentMessages| > 0
                && c.recentMessages[|c.recentMessages| - 1] == CurrentMessage(currentMessage, timestamp)
    ensures !read.Session? || !GetOr(read.data, "messages", List([])).List? ==> c == EmptyContext
    ensures |c.recentMessages| <= (if maxHistory < 0 then 0 else maxHistory) + 1
  {
    match read
    case Session(data) =>
      var stored := GetOr(data, "messages", List([]));
      if !stored.List? then EmptyContext
      else Context(KeepLast(stored.items, maxHistory) + [CurrentMessage(currentMessage, timestamp)],
                   GetOr(data, "memory_summary", Str("")), GetOr(data, "user_preferences", Object([])),
                   GetOr(data, "context_relevance_score", Float(0.0)))
    case _ => EmptyContext
  }

  /** The context keeps the most recent stored messages in their order,
    * just before the current one. */
  lemma ContextKeepsMostRecent(data: Record, items: seq<Value>, currentMessage: string, timestamp: string,
                               maxHistory: int)
    requires Get(data, "messages") == Some(List(items)) && maxHistory > 0
    ensures var c := GetConversationContext(Session(data), currentMessage, timestamp, maxHistory);
      var n := |c.recentMessages| - 1;
      && n == (if |items| < maxHistory then |items| else maxHistory)
      && c.recentMessages[..n] == items[|items| - n..]
  {
    var c := GetConversationContext(Session(data), currentMessage, timestamp, maxHistory);
    var kept := KeepLast(items, maxHistory);
    assert c.recentMessages == kept + [CurrentMessage(currentMessage, timestamp)];
    assert c.recentMessages[..|kept|] == kept;
  }

  // ---------------------------------------------------------------------
  // AgentRouter
  // ---------------------------------------------------------------------

  const TramitesAgentUrl: string := "http://localhost:8082"
  const PqrsdAgentUrl: string := "http://localhost:8083"
  const ProgramasAgentUrl: string := "http://localhost:8084"
  const NotificacionesAgentUrl: string := "http://localhost:8085"

  const TramiteIntents: set<string> :=
    {"tramite_buscar", "tramite_requisitos", "tramite_costo", "tramite_plazo", "tramite_oficina", "tramite_estado"}
  const PqrsdIntents: set<string> := {"pqrsd_crear", "pqrsd_estado", "pqrsd_tipos"}
  const ProgramaIntents: set<string> :=
    {"programa_buscar", "programa_elegibilidad", "programa_inscripcion", "programa_beneficios"}
  const NotificacionIntents: set<string> :=
    {"notificacion_pico_placa", "notificacion_cierre_vial", "notificacion_evento", "notificacion_alerta"}

  /** agent_urls.get(intent) */
  function AgentUrl(intent: string): Option<string>
  {
    if intent in TramiteIntents then Some(TramitesAgentUrl)
    else if intent in PqrsdIntents then Some(PqrsdAgentUrl)
    else if intent in ProgramaIntents then Some(ProgramasAgentUrl)
    else if intent in NotificacionIntents then Some(NotificacionesAgentUrl)
    else None
  }

  /** Every routed intent is named after its agent: tramite_* go to the
    * trámites agent, pqrsd_* to PQRSD, programa_* to social programmes and
    * notificacion_* to notifications; the intents handled in place have no agent. */
  lemma AgentUrlByFamily(intent: string)
    ensures AgentUrl(intent) == Some(TramitesAgentUrl) ==> StartsWith(intent, "tramite_")
    ensures AgentUrl(intent) == Some(PqrsdAgentUrl) ==> StartsWith(intent, "pqrsd_")
    ensures AgentUrl(intent) == Some(ProgramasAgentUrl) ==> StartsWith(intent, "programa_")
    ensures AgentUrl(intent) == Some(NotificacionesAgentUrl) ==> StartsWith(intent, "notificacion_")
    ensures intent in {"clarificacion", "human_escalation", "saludo", "despedida", "agradecimiento"}
            ==> AgentUrl(intent).None?
  {
  }

  /** How the POST to the agent went. */
  datatype AgentOutcome = Replied(result: Value) | TimedOut | RequestFailed | Unexpected

  function ErrorFor(error: string, intent: Value): Value
  {
    Object([("error", Str(error)), ("intent", intent)])
  }

  /** agent_urls.get for whatever value the classification holds: only a
    * string in the table has an agent. */
  function AgentFor(intent: Value): Option<string>
  {
    if intent.Str? then AgentUrl(intent.s) else None
  }

  /** route_to_agent: a list or dict intent cannot be looked up (it is not
    * hashable), which the catch-all answers with a routing error; any other
    * intent without an agent gives an error at once; otherwise the agent's
    * JSON reply, or an error naming the intent for a timeout, a failed
    * request or anything else. */
  function RouteToAgent(intent: Value, outcome: AgentOutcome): (r: Value)
  {
    if intent.List? || intent.Object? then ErrorFor("Routing error", intent)
    else
      match AgentFor(intent)
      case None => ErrorFor("No agent available for intent", intent)
      case Some(_) =>
        match outcome
        case Replied(result) => result
        case TimedOut => ErrorFor("Agent timeout", intent)
        case RequestFailed => ErrorFor("Agent unavailable", intent)
        case Unexpected => ErrorFor("Routing error", intent)
  }

  /** An intent outside the table never reaches an agent: whatever the agent
    * would have done, the answer is the same error naming the intent, a
    * routing error for an unhashable intent and "no agent" for any other. */
  lemma UnknownIntentNotRouted(intent: Value, o1: AgentOutcome, o2: AgentOutcome)
    requires AgentFor(intent).None?
    ensures RouteToAgent(intent, o1) == RouteToAgent(intent, o2)
    ensures var r := RouteToAgent(intent, o1);
      && r.Object?
      && Get(r.fields, "error") == Some(Str(if intent.List? || intent.Object? then "Routing error"
                                            else "No agent available for intent"))
      && Get(r.fields, "intent") == Some(intent)
  {
    assert "error"[0] != "intent"[0];
  }

  // ---------------------------------------------------------------------
  // process_request
  // ---------------------------------------------------------------------

  const GreetingIntents: set<string> := {"saludo", "despedida", "agradecimiento"}

  /** The fixed answer of _handle_general_interaction to each intent it knows. */
  function GreetingText(intent: string): string
  {
    if intent == "saludo" then "¡Hola! Bienvenido a MedellínBot, su asistente ciudadano. ¿En qué puedo ayudarle hoy?"
    else if intent == "despedida" then "¡Hasta luego! Gracias por usar MedellínBot. Si necesita algo más, no dude en contactarnos."
    else if intent == "agradecimiento" then "¡De nada! Estoy para servirle. ¿En qué más puedo ayudarle?"
    else "¡Hola! ¿En qué puedo ayudarle?"
  }

  /** The actions _handle_general_interaction suggests, whatever the intent. */
  const SuggestedActions: seq<Value> := [Str("tramites"), Str("pqrsd"), Str("programas_sociales"), Str("notificaciones")]

  /** _handle_general_interaction */
  function GeneralInteraction(intent: string): (r: Value)
    ensures r.Object? && |r.fields| == 2
    ensures Get(r.fields, "response") == Some(Str(GreetingText(intent)))
    ensures Get(r.fields, "suggested_actions") == Some(List(SuggestedActions))
  {
    assert "response"[0] != "suggested_actions"[0];
    Object([("response", Str(GreetingText(intent))), ("suggested_actions", List(SuggestedActions))])
  }

  /** Who answers a request. */
  datatype Handler = SecurityRejection | Clarification | HumanEscalation | General | AgentRouting

  /** The branch process_request takes. */
  function Dispatch(inputValid: bool, intent: Value): Handler
  {
    if !inputValid then SecurityRejection
    else if intent == Str("clarificacion") then Clarification
    else if intent == Str("human_escalation") then HumanEscalation
    else if intent.Str? && intent.s in GreetingIntents then General
    else AgentRouting
  }

  /** A failed or unsure classification always ends in a clarification, and
    * only a confident classification can reach an agent. */
  lemma UnsureGoesToClarification(llmReply: Result<Option<Value>, string>, fixed2: real -> string,
                                  thresholdText: string, typeErrorText: string)
    ensures var c := ClassifyIntent(llmReply, ConfidenceThreshold, fixed2, thresholdText, typeErrorText);
      var ok := llmReply.Success? && IntentParse(llmReply.value).Success?;
      (!ok || ConfidenceOf(llmReply.value.value).value < ConfidenceThreshold)
      ==> Dispatch(true, IntentOf(c).value) == Clarification
  {
  }

  /** The replies of the helpers that ask the LLM: the clarification
    * questions and the escalation decision. */
  datatype HandlerReplies = HandlerReplies(clarification: Value, escalation: Value)

  /** process_request after the input check: the classification picks a
    * handler, whose dict gets a metadata entry naming the intent, whatever
    * value that is; a reply that is not a dict makes that assignment raise,
    * which ends in the sanitised internal error. */
  function AnswerValid(timestamp: string, sessionId: string, processingTime: real,
                       llmReply: Result<Option<Value>, string>, fixed2: real -> string,
                       thresholdText: string, typeErrorText: string, replies: HandlerReplies,
                       outcome: AgentOutcome): Value
  {
    var intentData := ClassifyIntent(llmReply, ConfidenceThreshold, fixed2, thresholdText, typeErrorText);
    var intent := IntentOf(intentData).value;
    var response := HandlerResponse(intent, replies, outcome);
    if response.Object? then
      Object(SetKey(response.fields, "metadata",
                    Metadata(processingTime, intent, Get(intentData.fields, "confidence").value, timestamp, sessionId)))
    else InternalError(processingTime, timestamp, sessionId)
  }

  /** What the chosen handler answers. */
  function HandlerResponse(intent: Value, replies: HandlerReplies, outcome: AgentOutcome): Value
  {
    Handle(Dispatch(true, intent), intent, replies, outcome)
  }

  /** What a given handler answers. */
  function Handle(h: Handler, intent: Value, replies: HandlerReplies, outcome: AgentOutcome): Value
  {
    match h
    case Clarification => replies.clarification
    case HumanEscalation => replies.escalation
    case General => if intent.Str? then GeneralInteraction(intent.s) else Null
    case _ => RouteToAgent(intent, outcome)
  }

  /** The metadata attached to every answered request. */
  function Metadata(processingTime: real, intent: Value, confidence: Value, timestamp: string, sessionId: string): Value
  {
    Object([("processing_time", Float(processingTime)), ("intent", intent), ("confidence", confidence),
            ("timestamp", Str(timestamp)), ("session_id", Str(sessionId))])
  }

  /** The sanitised answer to an exception inside process_request. */
  function InternalError(processingTime: real, timestamp: string, sessionId: string): Value
  {
    SanitizeResponse(Object([("error", Str("Internal processing error")),
                             ("metadata", Object([("processing_time", Float(processingTime)),
                                                  ("timestamp", Str(timestamp)),
                                                  ("session_id", Str(sessionId))]))]))
  }

  /** process_request: the message is screened first; a rejected message is
    * answered with an error and its metadata before any classification. */
  method ProcessRequest(userMessage: string, patterns: seq<string -> bool>,
                        timestamp: string, sessionId: string, processingTime: real,
                        llmReply: Result<Option<Value>, string>, fixed2: real -> string,
                        thresholdText: string, typeErrorText: string, replies: HandlerReplies,
                        outcome: AgentOutcome)
    returns (response: Value)
    ensures (exists i | 0 <= i < |patterns| :: patterns[i](userMessage)) ==>
      response == Object([("error", Str("Invalid input detected - potential security threat")),
                          ("metadata", Object([("processing_time", Float(processingTime)),
                                               ("timestamp", Str(timestamp))]))])
    ensures (forall i | 0 <= i < |patterns| :: !patterns[i](userMessage)) ==>
      response == AnswerValid(timestamp, sessionId, processingTime, llmReply, fixed2,
                              thresholdText, typeErrorText, replies, outcome)
  {
    var valid := Security.ValidateInputData(Str(userMessage), patterns);
    if !valid {
      return Object([("error", Str("Invalid input detected - potential security threat")),
                     ("metadata", Object([("processing_time", Float(processingTime)),
                                          ("timestamp", Str(timestamp))]))]);
    }
    response := AnswerValid(timestamp, sessionId, processingTime, llmReply, fixed2,
                            thresholdText, typeErrorText, replies, outcome);
  }

  /** A greeting, farewell or thanks classified with confidence is answered
    * from the fixed table, with the four suggested actions. */
  lemma GreetingAnsweredInPlace(timestamp: string, sessionId: string, processingTime: real, data: Record,
                                fixed2: real -> string, thresholdText: string, typeErrorText: string,
                                replies: HandlerReplies, outcome: AgentOutcome, intent: string)
    requires intent in GreetingIntents
    requires IntentParse(Some(Object(data))).Success?
    requires Get(data, "intent") == Some(Str(intent))
    requires ConfidenceOf(Object(data)).value >= ConfidenceThreshold
    ensures var r := AnswerValid(timestamp, sessionId, processingTime, Success(Some(Object(data))),
                                 fixed2, thresholdText, typeErrorText, replies, outcome);
      && r.Object?
      && Get(r.fields, "response") == Some(Str(GreetingText(intent)))
      && Get(r.fields, "suggested_actions") == Some(List(SuggestedActions))
  {
    var c := ClassifyIntent(Success(Some(Object(data))), ConfidenceThreshold, fixed2, thresholdText, typeErrorText);
    assert IntentOf(c) == Some(Str(intent));
    GreetingHandled(intent, replies, outcome);
    assert "metadata"[0] != "response"[0] && "metadata"[0] != "suggested_actions"[0];
  }

  /** The greetings are answered by the general-interaction handler. */
  lemma GreetingHandled(intent: string, replies: HandlerReplies, outcome: AgentOutcome)
    requires intent in GreetingIntents
    ensures HandlerResponse(Str(intent), replies, outcome) == GeneralInteraction(intent)
  {
    DispatchGreeting(intent);
    HandledInPlace(Str(intent), replies, outcome);
  }

  lemma DispatchGreeting(intent: string)
    requires intent in GreetingIntents
    ensures Dispatch(true, Str(intent)) == General
  {
    assert |intent| == 6 || |intent| == 9 || |intent| == 14;
  }

  lemma HandledInPlace(intent: Value, replies: HandlerReplies, outcome: AgentOutcome)
    requires Dispatch(true, intent) == General
    ensures intent.Str? && HandlerResponse(intent, replies, outcome) == GeneralInteraction(intent.s)
  {
  }

  /** A confident classification whose intent is not a string is not an
    * internal error: it is routed, finds no agent (or cannot be looked up
    * when it is a list or dict), and the error naming it gets the metadata. */
  lemma NonStringIntentAnswered(timestamp: string, sessionId: string, processingTime: real, data: Record,
                                fixed2: real -> string, thresholdText: string, typeErrorText: string,
                                replies: HandlerReplies, outcome: AgentOutcome, intent: Value)
    requires !intent.Str?
    requires IntentParse(Some(Object(data))).Success?
    requires Get(data, "intent") == Some(intent)
    requires ConfidenceOf(Object(data)).value >= ConfidenceThreshold
    ensures var r := AnswerValid(timestamp, sessionId, processingTime, Success(Some(Object(data))),
                                 fixed2, thresholdText, typeErrorText, replies, outcome);
      && r.Object?
      && Get(r.fields, "error") == Some(Str(if intent.List? || intent.Object? then "Routing error"
                                            else "No agent available for intent"))
      && Get(r.fields, "intent") == Some(intent)
      && Get(r.fields, "metadata") == Some(Metadata(processingTime, intent, Get(data, "confidence").value,
                                                   timestamp, sessionId))
  {
    var c := ClassifyIntent(Success(Some(Object(data))), ConfidenceThreshold, fixed2, thresholdText, typeErrorText);
    assert IntentOf(c) == Some(intent);
    var error := if intent.List? || intent.Object? then "Routing error" else "No agent available for intent";
    NonStringRouted(intent, replies, outcome);
    ErrorWithMetadata(error, intent, Metadata(processingTime, intent, Get(data, "confidence").value, timestamp, sessionId));
  }

  /** A non-string intent is never handled in place: it goes to the router,
    * which finds no agent for it. */
  lemma NonStringRouted(intent: Value, replies: HandlerReplies, outcome: AgentOutcome)
    requires !intent.Str?
    ensures HandlerResponse(intent, replies, outcome)
            == ErrorFor(if intent.List? || intent.Object? then "Routing error" else "No agent available for intent", intent)
  {
    assert Dispatch(true, intent) == AgentRouting;
  }

  /** The metadata is added beside the error and the intent. */
  lemma ErrorWithMetadata(error: string, intent: Value, metadata: Value)
    ensures var r := SetKey(ErrorFor(error, intent).fields, "metadata", metadata);
      Get(r, "error") == Some(Str(error)) && Get(r, "intent") == Some(intent) && Get(r, "metadata") == Some(metadata)
  {
    assert "metadata"[0] != "error"[0] && "metadata"[0] != "intent"[0];
  }
}
