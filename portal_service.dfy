// The customer portal's client-side session and link ids
// (src/services/portalService.ts). localStorage is a map from keys to stored
// entries; `Date.now()` is a parameter. The RPC calls are left out, except for
// the result that validateCode acts on.
module PortalService {
  import opened Wrappers
  import Base64

  const SessionKey := "portal_session"

  /** SESSION_DURATION: two hours in milliseconds. */
  const SessionDuration := 2 * 60 * 60 * 1000

  datatype Session = Session(customerId: string, expiresAt: int, createdAt: int)

  /** A stored value: the JSON of a session, or text that does not parse as one. */
  datatype Entry = SessionJson(session: Session) | Text(raw: string)

  /** What getSession returns for a store at instant `now`. An empty string is falsy and
    * counts as nothing stored. */
  function SessionAt(store: map<string, Entry>, now: int): (r: Option<Session>)
    ensures r.Some? ==> SessionKey in store && store[SessionKey] == SessionJson(r.value)
    ensures r.Some? ==> now <= r.value.expiresAt
  {
    if SessionKey !in store then None
    else match store[SessionKey]
      case Text(_) => None
      case SessionJson(s) => if now > s.expiresAt then None else Some(s)
  }

  /** Whether getSession removes the entry: an expired session or unparsable text. */
  predicate ClearsOnRead(store: map<string, Entry>, now: int)
  {
    SessionKey in store &&
    match store[SessionKey]
    case Text(raw) => raw != ""
    case SessionJson(s) => now > s.expiresAt
  }

  class Portal {
    var store: map<string, Entry>

    constructor (initial: map<string, Entry>)
      ensures store == initial
    {
      store := initial;
    }

    /** createSession: the session entry is (re)written, everything else kept. */
    method CreateSession(customerId: string, now: int)
      modifies this
      ensures store == old(store)[SessionKey := SessionJson(Session(customerId, now + SessionDuration, now))]
    {
      var session := Session(customerId, now + SessionDuration, now);
      store := store[SessionKey := SessionJson(session)];
    }

    /** getSession */
    method GetSession(now: int) returns (s: Option<Session>)
      modifies this
      ensures s == SessionAt(old(store), now)
      ensures store == (if ClearsOnRead(old(store), now) then old(store) - {SessionKey} else old(store))
    {
      if SessionKey !in store {
        return None;
      }
      match store[SessionKey]
      case Text(raw) =>
        if raw != "" {
          ClearSession();
        }
        return None;
      case SessionJson(session) =>
        if now > session.expiresAt {
          ClearSession();
          return None;
        }
        return Some(session);
    }

    /** isSessionValid */
    method IsSessionValid(now: int) returns (valid: bool)
      modifies this
      ensures valid <==> SessionAt(old(store), now).Some?
      ensures store == (if ClearsOnRead(old(store), now) then old(store) - {SessionKey} else old(store))
    {
      var s := GetSession(now);
      valid := s.Some?;
    }

    /** clearSession */
    method ClearSession()
      modifies this
      ensures store == old(store) - {SessionKey}
    {
      store := store - {SessionKey};
    }

    /** validateCode, given the RPC's answer: an error (or a thrown call) is `Err`,
      * otherwise the `success` flag. A session is created only on success. */
    method ValidateCode(customerId: string, rpc: Result<bool>, now: int) returns (ok: bool)
      modifies this
      ensures ok <==> rpc == Ok(true)
      ensures ok ==> store == old(store)[SessionKey := SessionJson(Session(customerId, now + SessionDuration, now))]
      ensures !ok ==> store == old(store)
    {
      if rpc.Err? {
        return false;
      }
      if rpc.value {
        CreateSession(customerId, now);
        return true;
      }
      return false;
    }
  }

  /** A freshly created session is valid up to and including its expiry instant, two hours
    * later, and not one millisecond after. */
  lemma SessionLifetime(store: map<string, Entry>, customerId: string, created: int, now: int)
    requires created <= now
    ensures var s := store[SessionKey := SessionJson(Session(customerId, created + SessionDuration, created))];
      (SessionAt(s, now).Some? <==> now <= created + 7200000)
      && (SessionAt(s, now).Some? ==> SessionAt(s, now).value.customerId == customerId)
  {
  }

  /** After clearing, nothing is found, whatever was stored. */
  lemma ClearedStoreHasNoSession(store: map<string, Entry>, now: int)
    ensures SessionAt(store - {SessionKey}, now).None?
    ensures !ClearsOnRead(store - {SessionKey}, now)
  {
  }

  /** Reading twice gives the same answer as reading once: what the first read removes
    * would have been rejected anyway. */
  lemma GetSessionStable(store: map<string, Entry>, now: int)
    ensures var after := if ClearsOnRead(store, now) then store - {SessionKey} else store;
      SessionAt(after, now) == SessionAt(store, now)
  {
  }

  /** The characters of a string as bytes, when each is below 256 (what `btoa` accepts). */
  function Latin1Bytes(s: string): (r: Option<seq<Base64.Byte>>)
    ensures r.Some? <==> forall i :: 0 <= i < |s| ==> s[i] as int < 256
    ensures r.Some? ==> |r.value| == |s| && forall i :: 0 <= i < |s| ==> r.value[i] == s[i] as int
  {
    if s == [] then Some([])
    else if s[0] as int >= 256 then None
    else match Latin1Bytes(s[1..])
      case None => None
      case Some(rest) => Some([s[0] as int as Base64.Byte] + rest)
  }

  /** The string whose characters are the given bytes (what `atob` returns). */
  function BytesText(b: seq<Base64.Byte>): (r: string)
    ensures |r| == |b| && forall i :: 0 <= i < |b| ==> r[i] as int == b[i]
  {
    seq(|b|, i requires 0 <= i < |b| => b[i] as char)
  }

  /** encryptCustomerId: `btoa`, which throws on a character above U+00FF. */
  function EncryptCustomerId(customerId: string): (r: Result<string>)
    ensures r.Ok? <==> Latin1Bytes(customerId).Some?
  {
    match Latin1Bytes(customerId)
    case None => Err("InvalidCharacterError")
    case Some(b) => Ok(Base64.Encode(b))
  }

  /** decryptCustomerId: `atob`, with its failure reported as an invalid link. */
  function DecryptCustomerId(encrypted: string): (r: Result<string>)
    ensures r.Err? ==> r.error == "Link inválido"
    ensures r.Ok? <==> Base64.Decode(encrypted).Some?
  {
    match Base64.Decode(encrypted)
    case None => Err("Link inválido")
    case Some(b) => Ok(BytesText(b))
  }

  /** Every id that can be put in a link is recovered from it. */
  lemma DecryptEncrypt(customerId: string)
    requires EncryptCustomerId(customerId).Ok?
    ensures DecryptCustomerId(EncryptCustomerId(customerId).value) == Ok(customerId)
  {
    var b := Latin1Bytes(customerId).value;
    Base64.DecodeEncode(b);
    assert BytesText(b) == customerId;
  }
}
