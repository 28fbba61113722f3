/** Per-request session resolution: header -> token -> claims -> account.
    Every failure on the way leaves the request anonymous. */
module Context {
  import opened Wrappers
  import opened Schema
  import opened Tokens

  /** `TrpcContext`: the request and response pass through untouched. */
  datatype TrpcContext<Req, Res> = TrpcContext(req: Req, res: Res, user: Option<Account>)

  /** The first account with the given id (`where(eq(users.id, id)).limit(1)`). */
  function FindById(users: seq<Account>, id: int): (r: Option<Account>)
    ensures r.Some? ==> r.value in users && r.value.id == id
    ensures r.None? ==> forall i :: 0 <= i < |users| ==> users[i].id != id
  {
    if users == [] then None
    else if users[0].id == id then Some(users[0])
    else FindById(users[1..], id)
  }

  /** The claims a header carries, when it carries a non-empty token that verifies. */
  function SessionClaims(authorization: Option<string>, secret: Option<string>, signer: Signer)
    : (claims: Option<JWTPayload>)
    ensures claims.Some? ==> SecretConfigured(secret)
    ensures claims.Some? <==>
      && ExtractTokenFromHeader(authorization).Some? && ExtractTokenFromHeader(authorization).value != ""
      && VerifyToken(ExtractTokenFromHeader(authorization).value, secret, signer).Ok?
    ensures claims.Some? ==> claims.value == VerifyToken(ExtractTokenFromHeader(authorization).value, secret, signer).value
  {
    var token := ExtractTokenFromHeader(authorization);
    if token.None? || token.value == "" then None
    else
      var verified := VerifyToken(token.value, secret, signer);
      if verified.Err? then None else Some(verified.value)
  }

  function CreateContext<Req, Res>(req: Req, res: Res, authorization: Option<string>,
                                  secret: Option<string>, signer: Signer, db: Database?)
    : (ctx: TrpcContext<Req, Res>)
    reads db
    ensures ctx.req == req && ctx.res == res
    ensures ctx.user.Some? <==>
      (&& SessionClaims(authorization, secret, signer).Some?
       && db != null
       && SessionClaims(authorization, secret, signer).value.userId in AccountIds(db.users))
    ensures ctx.user.Some? ==>
      ctx.user.value in db.users && ctx.user.value.id == SessionClaims(authorization, secret, signer).value.userId
  {
    var claims := SessionClaims(authorization, secret, signer);
    var user :=
      if claims.None? || db == null then None
      else FindById(db.users, claims.value.userId);
    TrpcContext(req, res, user)
  }

  /** No header, or a header without a non-empty bearer token, is anonymous. */
  lemma NoTokenIsAnonymous<Req, Res>(req: Req, res: Res, authorization: Option<string>,
                                     secret: Option<string>, signer: Signer, db: Database?)
    requires ExtractTokenFromHeader(authorization) in {None, Some("")}
    ensures CreateContext(req, res, authorization, secret, signer, db).user == None
  {
  }

  /** A token that does not verify, for whatever reason, is anonymous and is not an error. */
  lemma RejectedTokenIsAnonymous<Req, Res>(req: Req, res: Res, authorization: Option<string>,
                                           secret: Option<string>, signer: Signer, db: Database?)
    requires ExtractTokenFromHeader(authorization).Some?
    requires VerifyToken(ExtractTokenFromHeader(authorization).value, secret, signer).Err?
    ensures CreateContext(req, res, authorization, secret, signer, db).user == None
  {
  }

  /** With unique ids, a verified session resolves to the one account with the claimed id. */
  lemma VerifiedSessionFindsAccount<Req, Res>(req: Req, res: Res, authorization: Option<string>,
                                               secret: Option<string>, signer: Signer, db: Database, a: Account)
    requires db.Valid() && a in db.users
    requires SessionClaims(authorization, secret, signer) == Some(JWTPayload(a.id, a.email.GetOr(""), a.role))
    ensures CreateContext(req, res, authorization, secret, signer, db).user == Some(a)
  {
    var u := CreateContext(req, res, authorization, secret, signer, db).user;
    assert a.id in AccountIds(db.users);
    var i :| 0 <= i < |db.users| && db.users[i] == u.value;
    var j :| 0 <= j < |db.users| && db.users[j] == a;
    assert i == j;
  }
}
