/** `ChatGPTLogin` in the form its methods have, proved against `CodexAuth`. */
module CodexLogin {
  import opened Options
  import opened CodexAuth

  /** The shared login file, rewritten in place. */
  class AuthFile {
    var version: nat
    var content: Option<Auth>

    constructor (auth: Auth)
      ensures version == 0 && content == Some(auth)
    {
      version, content := 0, Some(auth);
    }

    function Value(): File
      reads this
    {
      File(version, content)
    }

    method Store(auth: Option<Auth>)
      modifies this
      ensures version == old(version) + 1 && content == auth
    {
      version, content := version + 1, auth;
    }
  }

  /** What one post brings back; `found` is what an outside writer put into the file
      meanwhile, if one did. */
  datatype Outcome = Answered(answer: Answer) | Rejected(found: Option<Auth>) | Failed

  class ChatGPTLogin {
    const file: AuthFile
    var cached: Cache
    var failedToken: Option<Token>

    constructor (file: AuthFile)
      ensures this.file == file && State() == FRESH
    {
      this.file, cached, failedToken := file, None, None;
    }

    function State(): Proc
      reads this
    {
      Proc(cached, failedToken, Out)
    }

    /** The file's content, re-read only when its stat changed. None for a file that
        does not parse when there is no copy yet. */
    method ReadFile() returns (auth: Option<Auth>)
      modifies `cached
      ensures var r := Read(file.Value(), old(cached)); cached == r.cached && auth == r.auth
    {
      if cached.None? || cached.value.0 != file.version {
        if file.content.None? {
          if cached.None? { return None; }
          return Some(cached.value.1);
        }
        cached := Some((file.version, file.content.value));
      }
      return Some(cached.value.1);
    }

    method OnRejected(token: Token)
      modifies `cached, `failedToken
      ensures State() == CodexAuth.Rejected(file.Value(), old(State()), token)
    {
      cached := None;
      var auth := ReadFile();
      if auth.Some? && auth.value.refresh == token { failedToken := Some(token); }
    }

    /** In place: half written for a while, and complete or failed in the end. */
    method WriteFile(current: Auth, answer: Answer, now: int, ok: bool)
      modifies this, file
      ensures ok ==> file.version == old(file.version) + 2 && file.content == Some(Updated(current, answer, now))
                     && State() == FRESH
      ensures !ok ==> && failedToken == old(failedToken)
                      && Read(file.Value(), cached).auth == Some(Updated(current, answer, now))
      ensures var login := Read(file.Value(), cached).auth; login.Some? && Took(login.value, current, answer, now)
    {
      var updated := Updated(current, answer, now);
      file.Store(None);
      if !ok {
        cached := Some((file.version, updated));
        return;
      }
      file.Store(Some(updated));
      cached := None;
      failedToken := None;
    }

    /** `_refresh_if`, under the lock: what it posts, and what the next read serves. */
    method RefreshIf(need: Need, now: int, outcome: Outcome, ok: bool) returns (posted: Option<Token>)
      modifies this, file
      ensures var r := Read(old(file.Value()), old(cached));
        && (posted.None? <==>
              r.auth.None? || old(failedToken) == Some(r.auth.value.refresh) || !Needed(need, r.auth.value, now))
        && (posted.None? ==> cached == r.cached && failedToken == old(failedToken) && file.Value() == old(file.Value()))
        && (posted.Some? ==> posted == Some(r.auth.value.refresh))
        && (posted.Some? && outcome.Answered? ==>
              && Read(file.Value(), cached).auth == Some(Updated(r.auth.value, outcome.answer, now))
              && (ok ==> file.content == Some(Updated(r.auth.value, outcome.answer, now)) && failedToken == None)
              && Took(Updated(r.auth.value, outcome.answer, now), r.auth.value, outcome.answer, now))
        && (posted.Some? && outcome.Rejected? ==>
              && file.content == (if outcome.found.Some? then outcome.found else old(file.content))
              && State() == CodexAuth.Rejected(file.Value(), Proc(r.cached, old(failedToken), Out), posted.value))
        && (posted.Some? && outcome.Failed? ==>
              cached == r.cached && failedToken == old(failedToken) && file.Value() == old(file.Value()))
    {
      var current := ReadFile();
      if current.None? { return None; }
      var token := current.value.refresh;
      if failedToken == Some(token) || !Needed(need, current.value, now) { return None; }
      posted := Some(token);
      match outcome
      case Answered(answer) => WriteFile(current.value, answer, now, ok);
      case Rejected(found) =>
        if found.Some? { file.Store(found); }
        OnRejected(token);
      case Failed =>
    }

    /** `headers`: those of the login as it is after a refresh, when one was due. An answer
        counts at once, written or not, and its login is then good for as long as its
        access token. */
    method Headers(now: int, outcome: Outcome, ok: bool) returns (headers: Option<(Access, nat)>, posted: Option<Token>)
      modifies this, file
      ensures var r := Read(file.Value(), cached);
        headers == if r.auth.Some? then Some((r.auth.value.access, r.auth.value.account)) else None
      ensures var was := Read(old(file.Value()), old(cached)).auth;
        && (posted.None? <==>
              was.None? || old(failedToken) == Some(was.value.refresh) || StillGood(was.value, now))
        && (posted.Some? ==> posted == Some(was.value.refresh))
        && (was.Some? && (posted.None? || outcome.Failed?) ==> headers == Some((was.value.access, was.value.account)))
        && (posted.Some? && outcome.Answered? ==>
              headers == Some((if outcome.answer.access.Some? then outcome.answer.access.value else was.value.access,
                               was.value.account)))
        && (posted.Some? && outcome.Answered? ==>
              var login := Read(file.Value(), cached).auth;
              && login.Some? && Took(login.value, was.value, outcome.answer, now)
              && (ok ==> file.content == login)
              && (StillGood(login.value, now) <==>
                    headers.value.0.expiry.Some? && now + 300 < headers.value.0.expiry.value))
    {
      posted := RefreshIf(Age, now, outcome, ok);
      var auth := ReadFile();
      headers := if auth.Some? then Some(HeadersFrom(auth.value)) else None;
    }

    /** `recover`: whether the next request carries other headers; None is the error of
        a login that cannot be read. No token is spent when other headers are there
        already; an answer helps if and only if it brings another access token. */
    method Recover(sent: (Access, nat), now: int, outcome: Outcome, ok: bool)
      returns (retry: Option<bool>, posted: Option<Token>)
      modifies this, file
      ensures var r := Read(file.Value(), cached);
        retry == if r.auth.Some? then Some((r.auth.value.access, r.auth.value.account) != sent) else None
      ensures var was := Read(old(file.Value()), old(cached)).auth;
        && (posted.None? <==>
              || was.None? || (was.value.access, was.value.account) != sent
              || old(failedToken) == Some(was.value.refresh))
        && (was.Some? && posted.None? ==> retry == Some((was.value.access, was.value.account) != sent))
        && (posted.Some? && outcome.Failed? ==> retry == Some(false))
        && (posted.Some? && outcome.Rejected? ==>
              retry == if file.content.Some?
                       then Some((file.content.value.access, file.content.value.account) != sent) else None)
        && (posted.Some? && outcome.Answered? ==>
              retry == Some(outcome.answer.access.Some? && outcome.answer.access.value != sent.0))
    {
      posted := RefreshIf(Refused(sent), now, outcome, ok);
      var auth := ReadFile();
      retry := if auth.Some? then Some(HeadersFrom(auth.value) != sent) else None;
    }
  }
}
