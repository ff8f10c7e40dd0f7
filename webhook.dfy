// The Telegram webhook's own checks: the per-IP rate limiter, the shape
// and whitelist check of an incoming update, the session id derived from
// the chat and user, and the response sanitiser (which, unlike the
// orchestrator's, lets a "jwt" key through).
module Webhook {
  import opened Wrappers
  import opened Text
  import opened Json
  import Security

  const RateLimitRequests: int := 100
  const RateLimitWindow: int := 3600

  /** The keys the webhook's sanitize_response removes. */
  const SensitiveFields: set<string> := {"password", "token", "secret", "key", "authorization"}

  /** The module-level rate_limit_store with the default limits. */
  method NewRateLimitStore() returns (limiter: Security.SlidingWindowLimiter)
    ensures fresh(limiter) && limiter.Valid() && limiter.store == map[]
    ensures limiter.window == RateLimitWindow && limiter.maxRequests == RateLimitRequests
  {
    limiter := new Security.SlidingWindowLimiter(RateLimitWindow, RateLimitRequests);
  }

  /** sanitize_response with the webhook's sensitive keys. */
  function SanitizeResponse(v: Value): (r: Value)
    ensures Security.NoSensitiveKeys(r, SensitiveFields)
    ensures Security.NoSensitiveKeys(v, SensitiveFields) ==> r == v
  {
    Security.SanitizeRemovesSensitive(v, SensitiveFields);
    var r := Security.Sanitize(v, SensitiveFields);
    if Security.NoSensitiveKeys(v, SensitiveFields) then (Security.SanitizeKeepsClean(v, SensitiveFields); r) else r
  }

  /** "jwt" is not on the webhook's list: a jwt entry comes back out. */
  lemma JwtPassesWebhook(x: Value)
    ensures ("jwt", Security.Sanitize(x, SensitiveFields)) in SanitizeResponse(Object([("jwt", x)])).fields
  {
    assert Lower("jwt") == "jwt";
    assert "jwt"[0] !in {'p', 't', 's', 'k', 'a'};
    assert !Security.Sensitive("jwt", SensitiveFields);
    Security.SanitizeKeepsOrdinaryKey([("jwt", x)], SensitiveFields, "jwt", x);
  }

  // ---------------------------------------------------------------------
  // validate_telegram_update
  // ---------------------------------------------------------------------

  /** What validate_telegram_update does: accept, reject with a reason, or
    * raise (a message or chat that is not a dict has no .get). */
  datatype UpdateCheck = Accepted | Rejected(reason: string) | Raises

  /** `'message' in payload` for a truthy payload. */
  function HasMessage(payload: Value): Option<bool>
  {
    match payload
    case Object(fields) => Some(HasKey(fields, "message"))
    case Str(s) => Some(Contains(s, "message"))
    case List(items) => Some(Str("message") in items)
    case _ => None
  }

  /** validate_telegram_update. allowedChatIds is the whitelist (None when
    * none is configured), pyStr is Python's str(), and patterns are the
    * dangerous-input patterns. */
  function ValidateTelegramUpdate(payload: Value, allowedChatIds: Option<seq<string>>,
                                  pyStr: Value -> string, patterns: seq<string -> bool>): (r: UpdateCheck)
    ensures !Truthy(payload) ==> r == Rejected("Empty payload")
    ensures payload.Object? && payload.fields != [] && !HasKey(payload.fields, "message")
            ==> r == Rejected("Missing message field")
    ensures r == Accepted ==> payload.Object? && HasKey(payload.fields, "message")
  {
    if !Truthy(payload) then Rejected("Empty payload")
    else match HasMessage(payload)
      case None => Raises
      case Some(present) =>
        if !present then Rejected("Missing message field")
        else if !payload.Object? then Raises
        else
          var message := Get(payload.fields, "message").value;
          if !message.Object? then Raises
          else
            var chat := match Get(message.fields, "chat") case Some(c) => c case None => Object([]);
            if !chat.Object? then Raises
            else
              var id := match Get(chat.fields, "id") case Some(i) => i case None => Null;
              if !Truthy(id) then Rejected("Missing chat ID")
              else if allowedChatIds.Some? && allowedChatIds.value != [] && pyStr(id) !in allowedChatIds.value
              then Rejected("Chat ID " + pyStr(id) + " not in allowed list")
              else
                var text := match Get(message.fields, "text") case Some(t) => t case None => Str("");
                if Truthy(text) && !Security.Safe(text, patterns)
                then Rejected("Invalid input detected - potential security threat")
                else Accepted
  }

  /** The chat id of an update that has one, if any. */
  function ChatId(payload: Value): Option<Value>
  {
    if payload.Object? && Get(payload.fields, "message").Some? && Get(payload.fields, "message").value.Object?
       && Get(Get(payload.fields, "message").value.fields, "chat").Some?
       && Get(Get(payload.fields, "message").value.fields, "chat").value.Object?
    then Get(Get(Get(payload.fields, "message").value.fields, "chat").value.fields, "id")
    else None
  }

  /** The message's text, '' when it has none (or when there is no message dict). */
  function UpdateText(payload: Value): Value
  {
    if payload.Object? && Get(payload.fields, "message").Some? && Get(payload.fields, "message").value.Object?
    then match Get(Get(payload.fields, "message").value.fields, "text") case Some(t) => t case None => Str("")
    else Str("")
  }

  /** A chat id the whitelist admits: there is no whitelist, it is empty, or
    * it lists the id's str(). */
  predicate Whitelisted(id: Value, allowedChatIds: Option<seq<string>>, pyStr: Value -> string)
  {
    allowedChatIds.None? || allowedChatIds.value == [] || pyStr(id) in allowedChatIds.value
  }

  /** An accepted update has a truthy, whitelisted chat id, and its text, if
    * any, passes the injection screen. */
  lemma AcceptedHasChat(payload: Value, allowedChatIds: Option<seq<string>>, pyStr: Value -> string,
                        patterns: seq<string -> bool>)
    requires ValidateTelegramUpdate(payload, allowedChatIds, pyStr, patterns) == Accepted
    ensures ChatId(payload).Some? && Truthy(ChatId(payload).value)
    ensures Whitelisted(ChatId(payload).value, allowedChatIds, pyStr)
    ensures Truthy(UpdateText(payload)) ==> Security.Safe(UpdateText(payload), patterns)
  {
  }

  /** Once an update has a truthy chat id, the last three checks decide: a
    * chat off the whitelist is refused naming the id, then dangerous text is
    * refused, and everything else is accepted. */
  lemma ChatCheckedOutcome(payload: Value, allowedChatIds: Option<seq<string>>, pyStr: Value -> string,
                           patterns: seq<string -> bool>)
    requires ChatId(payload).Some? && Truthy(ChatId(payload).value)
    ensures var r := ValidateTelegramUpdate(payload, allowedChatIds, pyStr, patterns);
            && (!Whitelisted(ChatId(payload).value, allowedChatIds, pyStr)
                ==> r == Rejected("Chat ID " + pyStr(ChatId(payload).value) + " not in allowed list"))
            && (Whitelisted(ChatId(payload).value, allowedChatIds, pyStr)
                && Truthy(UpdateText(payload)) && !Security.Safe(UpdateText(payload), patterns)
                ==> r == Rejected("Invalid input detected - potential security threat"))
            && (r == Accepted <==>
                  (Whitelisted(ChatId(payload).value, allowedChatIds, pyStr)
                   && (Truthy(UpdateText(payload)) ==> Security.Safe(UpdateText(payload), patterns))))
  {
  }

  /** The empty dict is an empty payload: it never reaches the message check. */
  lemma EmptyDictIsEmptyPayload(allowedChatIds: Option<seq<string>>, pyStr: Value -> string,
                                patterns: seq<string -> bool>)
    ensures ValidateTelegramUpdate(Object([]), allowedChatIds, pyStr, patterns) == Rejected("Empty payload")
  {
  }

  /** An update whose message has no chat is refused for its missing chat id. */
  lemma NoChatMeansMissingChatId(message: Record, allowedChatIds: Option<seq<string>>, pyStr: Value -> string,
                                 patterns: seq<string -> bool>)
    requires !HasKey(message, "chat")
    ensures ValidateTelegramUpdate(Object([("message", Object(message))]), allowedChatIds, pyStr, patterns)
            == Rejected("Missing chat ID")
  {
  }

  // ---------------------------------------------------------------------
  // create_session_id
  // ---------------------------------------------------------------------

  predicate IsHexDigit(c: char)
  {
    '0' <= c <= '9' || 'a' <= c <= 'f'
  }

  /** A SHA-256 hex digest: 64 lowercase hex digits. */
  type HexDigest = s: string | |s| == 64 && forall i | 0 <= i < |s| :: IsHexDigit(s[i])
    witness seq(64, _ => '0')

  /** create_session_id: "tg:" and the first 16 hex digits of the SHA-256
    * of "{chat_id}_{user_id}_{secret}". */
  function CreateSessionId(chatId: int, userId: int, jwtSecret: string, sha256: string -> HexDigest): (id: string)
    ensures |id| == 19 && StartsWith(id, "tg:")
    ensures forall i | 3 <= i < 19 :: IsHexDigit(id[i])
  {
    var digest := sha256(IntToString(chatId) + "_" + IntToString(userId) + "_" + jwtSecret);
    var id := "tg:" + digest[..16];
    assert id[..3] == "tg:";
    id
  }
}
