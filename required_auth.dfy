/** The `requiredAuth` middleware (backend/src/middlewares/requiredAuth.ts): the bearer guard,
    the token extraction, and the outcome of the handler, with `jwt.verify` and
    `User.findById(...).select('-password')` as oracles passed in by the caller. */
module RequiredAuth {
  import opened Types

  type UserId = string

  /** A user document without its password hash (`UIUser`); only `_id` matters here. */
  datatype UIUser = UIUser(id: UserId, username: string, email: string)

  /** What `User.findById` can throw: an `Error` instance, or some other value. */
  datatype LookupError = ErrorInstance(message: string) | NonErrorValue

  /** The settled `await User.findById(_id)`: a user, `null`, or a throw. */
  datatype Lookup = Found(user: UIUser) | NotFound | Throws(error: LookupError)

  /** `res.status(status).json({ error })`. */
  datatype Reply = Reply(status: int, error: string)

  const TokenRequired := "Authorization token required"
  const NotAuthorized := "Request is not authorized"
  const BearerScheme := "Bearer"
  const UserIdKey := "user_id"

  /** How one call of the handler ends. */
  datatype Decision =
    /** A 401 reply is written and `next` is not called. */
    | Reject(reply: Reply)
    /** `req.body.user_id` is set (to `undefined` when the user is gone) and `next` is called. */
    | Proceed(userId: Option<UserId>)
    /** `jwt.verify` threw outside the `try`: the handler's promise rejects, nothing is written. */
    | VerifyEscapes
    /** The lookup threw something that is not an `Error`: it is logged and swallowed, so no
        reply is written and `next` is not called. */
    | Stalls

  predicate StartsWith(s: string, prefix: string)
  {
    |prefix| <= |s| && s[..|prefix|] == prefix
  }

  /** `!authorization || !authorization.startsWith('Bearer')` is false: a header is present and
      its first six characters are `Bearer`, with no space required after them. */
  predicate PassesGuard(authorization: Option<string>)
  {
    authorization.Some? && StartsWith(authorization.value, BearerScheme)
  }

  /** `s.split(' ')`: the pieces between single spaces, empty pieces included. */
  function Split(s: string): (parts: seq<string>)
    ensures |parts| >= 1
    ensures forall i :: 0 <= i < |parts| ==> ' ' !in parts[i]
    ensures |parts| == 1 <==> ' ' !in s
    ensures |parts| == 1 ==> parts[0] == s
    decreases |s|
  {
    if s == [] then [""]
    else
      var rest := Split(s[1..]);
      if s[0] == ' ' then [""] + rest
      else [[s[0]] + rest[0]] + rest[1..]
  }

  /** `parts.join(' ')`. */
  function Join(parts: seq<string>): string
    requires |parts| >= 1
    decreases |parts|
  {
    if |parts| == 1 then parts[0] else parts[0] + (" " + Join(parts[1..]))
  }

  /** A leading space splits off an empty first piece. */
  lemma SplitLeadingSpace(s: string)
    requires s != [] && s[0] == ' '
    ensures Split(s) == [""] + Split(s[1..])
    ensures Join(Split(s)) == " " + Join(Split(s[1..]))
  {
    var rest := Split(s[1..]);
    assert ([""] + rest)[1..] == rest;
  }

  /** A leading non-space character starts the first piece. */
  lemma SplitNonSpaceHead(s: string)
    requires s != [] && s[0] != ' '
    ensures var rest := Split(s[1..]); Split(s) == [[s[0]] + rest[0]] + rest[1..]
  {
  }

  /** Prefixing the first piece with a character prefixes the joined text with it. */
  lemma JoinPrefixFirst(c: char, parts: seq<string>)
    requires |parts| >= 1
    ensures Join([[c] + parts[0]] + parts[1..]) == [c] + Join(parts)
  {
    var extended := [[c] + parts[0]] + parts[1..];
    if |parts| > 1 {
      var tail := " " + Join(parts[1..]);
      assert extended[1..] == parts[1..];
      assert ([c] + parts[0]) + tail == [c] + (parts[0] + tail);
    }
  }

  /** A leading non-space character joins the first piece of the rest. */
  lemma SplitLeadingChar(s: string)
    requires s != [] && s[0] != ' '
    ensures Join(Split(s)) == [s[0]] + Join(Split(s[1..]))
  {
    SplitNonSpaceHead(s);
    JoinPrefixFirst(s[0], Split(s[1..]));
  }

  /** Splitting loses nothing: joining the pieces with single spaces gives the header back. */
  lemma {:induction false} JoinSplit(s: string)
    ensures Join(Split(s)) == s
    decreases |s|
  {
    if s != [] {
      JoinSplit(s[1..]);
      assert s == [s[0]] + s[1..];
      if s[0] == ' ' {
        SplitLeadingSpace(s);
      } else {
        SplitLeadingChar(s);
      }
    }
  }

  /** `authorization.split(' ').reverse()[0]`: the last piece of the split header. */
  function ExtractToken(authorization: string): string
  {
    var parts := Split(authorization);
    parts[|parts| - 1]
  }

  /** The token is the longest space-free tail of the header: it ends the header, contains no
      space, and is either the whole header or preceded by a space. */
  lemma {:induction false} TokenIsFinalWord(h: string)
    ensures var t := ExtractToken(h);
      ' ' !in t && |t| <= |h| && h[|h| - |t|..] == t && (|t| < |h| ==> h[|h| - |t| - 1] == ' ')
    decreases |h|
  {
    var t := ExtractToken(h);
    if h != [] {
      var tail := h[1..];
      var rest := Split(tail);
      TokenIsFinalWord(tail);
      if h[0] == ' ' {
        assert Split(h) == [""] + rest;
        assert t == ExtractToken(tail);
        assert h[|h| - |t|..] == tail[|tail| - |t|..];
      } else if |rest| == 1 {
        assert t == [h[0]] + rest[0] == h;
      } else {
        assert Split(h) == [[h[0]] + rest[0]] + rest[1..];
        assert t == ExtractToken(tail);
        assert ' ' in tail;
        assert h[|h| - |t|..] == tail[|tail| - |t|..];
        assert h[|h| - |t| - 1] == tail[|tail| - |t| - 1];
      }
    }
  }

  /** For a header `<anything> <token>` whose token holds no space, the token is extracted exactly. */
  lemma TokenFollowsLastSpace(prefix: string, token: string)
    requires ' ' !in token
    ensures ExtractToken(prefix + " " + token) == token
  {
    var h := prefix + " " + token;
    var t := ExtractToken(h);
    TokenIsFinalWord(h);
    assert h[|h| - |token|..] == token;
    assert h[|h| - |token| - 1] == ' ';
    assert t == h[|h| - |t|..];
  }

  /** The canonical header `Bearer <token>` passes the guard and yields `<token>`. */
  lemma BearerHeader(token: string)
    requires ' ' !in token
    ensures PassesGuard(Some(BearerScheme + " " + token))
    ensures ExtractToken(BearerScheme + " " + token) == token
  {
    assert (BearerScheme + " " + token)[..|BearerScheme|] == BearerScheme;
    TokenFollowsLastSpace(BearerScheme, token);
  }

  /** The guard is a bare prefix test: `Bearer` glued to anything passes, and a header without
      any space is its own token, scheme marker included. */
  lemma GuardIsBarePrefix(rest: string)
    ensures PassesGuard(Some(BearerScheme + rest))
    ensures ' ' !in rest ==> ExtractToken(BearerScheme + rest) == BearerScheme + rest
  {
    var h := BearerScheme + rest;
    assert h[..|BearerScheme|] == BearerScheme;
    if ' ' !in rest {
      assert forall i :: 0 <= i < |h| ==> h[i] != ' ' by {
        forall i | 0 <= i < |h| ensures h[i] != ' ' {
          if i >= |BearerScheme| {
            assert h[i] == rest[i - |BearerScheme|];
          }
        }
      }
    }
  }

  /** The handler's outcome for a request carrying `authorization`. */
  function Decide(authorization: Option<string>, verify: string -> Option<UserId>, lookup: UserId -> Lookup): (d: Decision)
    ensures d.Reject? ==> d.reply.status == 401
    ensures d == Reject(Reply(401, TokenRequired)) <==> !PassesGuard(authorization)
    ensures d.Proceed? || d.VerifyEscapes? || d.Stalls? || d == Reject(Reply(401, NotAuthorized)) ==>
              PassesGuard(authorization)
    ensures d.Proceed? ==> verify(ExtractToken(authorization.value)).Some?
    ensures d.Proceed? && d.userId.Some? ==>
              var id := verify(ExtractToken(authorization.value)).value;
              lookup(id).Found? && d.userId.value == lookup(id).user.id
  {
    if !PassesGuard(authorization) then Reject(Reply(401, TokenRequired))
    else
      match verify(ExtractToken(authorization.value))
      case None => VerifyEscapes
      case Some(id) =>
        match lookup(id)
        case Found(u) => Proceed(Some(u.id))
        case NotFound => Proceed(None)
        case Throws(ErrorInstance(_)) => Reject(Reply(401, NotAuthorized))
        case Throws(NonErrorValue) => Stalls
  }

  /** A failed guard answers without consulting the token authority or the user store. */
  lemma GuardFailureIgnoresOracles(authorization: Option<string>,
                                   verify1: string -> Option<UserId>, lookup1: UserId -> Lookup,
                                   verify2: string -> Option<UserId>, lookup2: UserId -> Lookup)
    requires !PassesGuard(authorization)
    ensures Decide(authorization, verify1, lookup1) == Decide(authorization, verify2, lookup2)
              == Reject(Reply(401, TokenRequired))
  {
  }

  /** Past the guard: a failed verification escapes the handler instead of becoming a 401; a
      thrown `Error` from the lookup becomes a 401; any other thrown value is swallowed. */
  lemma PastGuardOutcomes(authorization: Option<string>, verify: string -> Option<UserId>, lookup: UserId -> Lookup)
    requires PassesGuard(authorization)
    ensures var token := ExtractToken(authorization.value);
      && (verify(token).None? ==> Decide(authorization, verify, lookup) == VerifyEscapes)
      && (verify(token).Some? && lookup(verify(token).value).Found? ==>
            Decide(authorization, verify, lookup) == Proceed(Some(lookup(verify(token).value).user.id)))
      && (verify(token).Some? && lookup(verify(token).value).Throws? ==>
            Decide(authorization, verify, lookup) ==
              if lookup(verify(token).value).error.ErrorInstance? then Reject(Reply(401, NotAuthorized)) else Stalls)
  {
  }

  /** A token whose subject no longer exists is not refused: the request goes on without an id. */
  lemma DeletedUserProceeds(authorization: Option<string>, verify: string -> Option<UserId>, lookup: UserId -> Lookup)
    requires PassesGuard(authorization)
    requires verify(ExtractToken(authorization.value)).Some?
    requires lookup(verify(ExtractToken(authorization.value)).value) == NotFound
    ensures Decide(authorization, verify, lookup) == Proceed(None)
  {
  }

  /** A request body as a map from keys to values; `None` is `undefined`. */
  type Body = map<string, Option<string>>

  /** The body after `req.body.user_id = user?._id`. */
  function Stamp(body: Body, userId: Option<UserId>): (r: Body)
    ensures UserIdKey in r && r[UserIdKey] == userId
    ensures r.Keys == body.Keys + {UserIdKey}
    ensures forall k :: k in body && k != UserIdKey ==> r[k] == body[k]
  {
    body[UserIdKey := userId]
  }

  /** Whatever `user_id` the client sent, the stamped body is the same: only the looked-up id survives. */
  lemma ClientUserIdOverwritten(body1: Body, body2: Body, userId: Option<UserId>)
    requires body1 - {UserIdKey} == body2 - {UserIdKey}
    ensures Stamp(body1, userId) == Stamp(body2, userId)
  {
    var r1, r2 := Stamp(body1, userId), Stamp(body2, userId);
    assert r1.Keys == r2.Keys by {
      calc {
        r1.Keys;
        (body1.Keys - {UserIdKey}) + {UserIdKey};
        (body1 - {UserIdKey}).Keys + {UserIdKey};
        (body2 - {UserIdKey}).Keys + {UserIdKey};
        (body2.Keys - {UserIdKey}) + {UserIdKey};
        r2.Keys;
      }
    }
    forall k | k in r1.Keys ensures r1[k] == r2[k] {
      if k != UserIdKey {
        assert body1[k] == (body1 - {UserIdKey})[k];
        assert body2[k] == (body2 - {UserIdKey})[k];
      }
    }
  }

  /** One Express request/response pair, as far as the handler touches it. */
  class Exchange {
    /** `req.headers.authorization`. */
    const authorization: Option<string>
    /** `req.body`. */
    var body: Body
    /** The replies written to `res`, in order. */
    var replies: seq<Reply>
    /** How many times `next` has been called. */
    var nextCalls: nat

    constructor (authorization: Option<string>, body: Body)
      ensures this.authorization == authorization && this.body == body
      ensures replies == [] && nextCalls == 0
    {
      this.authorization := authorization;
      this.body := body;
      replies := [];
      nextCalls := 0;
    }
  }

  /** `requiredAuth(req, res, next)`. Returns whether the handler's promise rejects. */
  method Handle(ex: Exchange, verify: string -> Option<UserId>, lookup: UserId -> Lookup) returns (rejects: bool)
    modifies ex
    ensures var d := Decide(ex.authorization, verify, lookup);
      match d
      case Reject(reply) =>
        ex.replies == old(ex.replies) + [reply] && ex.body == old(ex.body)
        && ex.nextCalls == old(ex.nextCalls) && !rejects
      case Proceed(userId) =>
        ex.body == Stamp(old(ex.body), userId) && ex.replies == old(ex.replies)
        && ex.nextCalls == old(ex.nextCalls) + 1 && !rejects
      case VerifyEscapes =>
        ex.body == old(ex.body) && ex.replies == old(ex.replies)
        && ex.nextCalls == old(ex.nextCalls) && rejects
      case Stalls =>
        ex.body == old(ex.body) && ex.replies == old(ex.replies)
        && ex.nextCalls == old(ex.nextCalls) && !rejects
    ensures ex.nextCalls == old(ex.nextCalls) + 1 <==> Decide(ex.authorization, verify, lookup).Proceed?
    ensures ex.nextCalls == old(ex.nextCalls) + 1 ==> ex.replies == old(ex.replies)
    ensures |ex.replies| <= |old(ex.replies)| + 1
  {
    rejects := false;
    var authorization := ex.authorization;
    if !PassesGuard(authorization) {
      ex.replies := ex.replies + [Reply(401, TokenRequired)];
    } else {
      var token := ExtractToken(authorization.value);
      var verified := verify(token);
      if verified.None? {
        rejects := true;
        return;
      }
      var found := lookup(verified.value);
      match found {
        case Found(u) =>
          ex.body := Stamp(ex.body, Some(u.id));
          ex.nextCalls := ex.nextCalls + 1;
        case NotFound =>
          ex.body := Stamp(ex.body, None);
          ex.nextCalls := ex.nextCalls + 1;
        case Throws(e) =>
          if e.ErrorInstance? {
            ex.replies := ex.replies + [Reply(401, NotAuthorized)];
          }
      }
    }
  }
}
