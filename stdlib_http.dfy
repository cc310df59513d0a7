/**
 * The standard-library HTTP transport (prisma/_stdlib_http.py): a session that
 * keeps one connection per (netloc, scheme) pair, the status check on its
 * responses, and the open/close lifecycle of the client that owns the session.
 * Sockets, request bodies and response bodies are not modelled: a connection is
 * an object that knows its host, whether it is TLS, and whether it was closed,
 * and the status a server answers is given to the model as a parameter.
 */
module StdlibHttp {
  import opened Wrappers

  /** An `http.client` connection (`HTTPConnection`, or `HTTPSConnection` when `secure`). */
  class Connection {
    const host: string
    const secure: bool
    var closed: bool

    constructor (host: string, secure: bool)
      ensures this.host == host && this.secure == secure && !closed
    {
      this.host := host;
      this.secure := secure;
      closed := false;
    }

    method Close()
      modifies this
      ensures closed
    {
      closed := true;
    }
  }

  /** The parts of a parsed URL the session uses (the result of `urlparse`). */
  datatype Url = Url(scheme: string, netloc: string, path: string)

  /** A response; only its status code is modelled. */
  datatype Response = Response(status: int)

  /** The exceptions the transport raises. */
  datatype HttpError =
    | UnexpectedScheme(scheme: string)  // ValueError: only http and https are supported
    | BadStatus(status: int)            // RuntimeError(status) when raise_for_status is set
    | ClientClosed                      // the client has no session

  predicate SupportedScheme(scheme: string) {
    scheme == "http" || scheme == "https"
  }

  /** Whether a request that asked for a status check raises for `status`. */
  predicate RaisesForStatus(raiseForStatus: bool, status: int) {
    raiseForStatus && !(200 <= status < 300)
  }

  /** The check rejects exactly the statuses outside the 2xx class. */
  lemma RaisesOutside2xx(raiseForStatus: bool, status: int)
    ensures RaisesForStatus(raiseForStatus, status) <==> raiseForStatus && status / 100 != 2
  {
  }

  /** How a request for `url` changes a connection table: not at all on a hit or
      on an unsupported scheme; on a supported miss, by one entry under the URL's
      (netloc, scheme) key and nothing else. */
  ghost predicate TableAfterRequest(before: map<(string, string), Connection>, after: map<(string, string), Connection>, url: Url) {
    var key := (url.netloc, url.scheme);
    if key in before || !SupportedScheme(url.scheme) then after == before
    else key in after && after == before[key := after[key]]
  }

  /** A session: the connections opened so far, keyed by (netloc, scheme). */
  class Session {
    var connections: map<(string, string), Connection>

    /** Every stored connection was opened for its key's host and scheme. */
    ghost predicate Valid()
      reads this
    {
      forall k :: k in connections ==>
        SupportedScheme(k.1) && connections[k].host == k.0 && connections[k].secure == (k.1 == "https")
    }

    constructor ()
      ensures Valid() && connections == map[]
    {
      connections := map[];
    }

    /** `_get_connection`: the stored connection on a hit; on a miss a new one for
        http or https, stored under the key; any other scheme raises. */
    method GetConnection(netloc: string, scheme: string) returns (r: Result<Connection, HttpError>)
      requires Valid()
      modifies this
      ensures Valid()
      ensures (netloc, scheme) in old(connections) ==>
        r == Ok(old(connections)[(netloc, scheme)]) && connections == old(connections)
      ensures (netloc, scheme) !in old(connections) && SupportedScheme(scheme) ==>
        && r.Ok? && fresh(r.value) && !r.value.closed
        && connections == old(connections)[(netloc, scheme) := r.value]
      ensures (netloc, scheme) !in old(connections) && !SupportedScheme(scheme) ==>
        r == Err(UnexpectedScheme(scheme)) && connections == old(connections)
      ensures r.Ok? ==> r.value.host == netloc && r.value.secure == (scheme == "https")
    {
      var key := (netloc, scheme);
      if key in connections {
        return Ok(connections[key]);
      }
      var conn: Connection;
      if scheme == "http" {
        conn := new Connection(netloc, false);
      } else if scheme == "https" {
        conn := new Connection(netloc, true);
      } else {
        return Err(UnexpectedScheme(scheme));
      }
      connections := connections[key := conn];
      return Ok(conn);
    }

    /** `request`: finds or opens the connection for the URL, sends the request
        (foreign), and checks the status the server answered when asked to. */
    method Request(url: Url, status: int, raiseForStatus: bool) returns (r: Result<Response, HttpError>)
      requires Valid()
      modifies this
      ensures Valid()
      ensures TableAfterRequest(old(connections), connections, url)
      ensures (url.netloc, url.scheme) !in old(connections) && SupportedScheme(url.scheme) ==>
        fresh(connections[(url.netloc, url.scheme)]) && !connections[(url.netloc, url.scheme)].closed
      ensures (url.netloc, url.scheme) !in old(connections) && !SupportedScheme(url.scheme) ==>
        r == Err(UnexpectedScheme(url.scheme))
      ensures (url.netloc, url.scheme) in connections ==>
        r == if RaisesForStatus(raiseForStatus, status) then Err(BadStatus(status)) else Ok(Response(status))
    {
      var conn :- GetConnection(url.netloc, url.scheme);
      if raiseForStatus && !(300 > status >= 200) {
        return Err(BadStatus(status));
      }
      return Ok(Response(status));
    }

    /** `close`: closes every stored connection; the table keeps its keys. */
    method Close()
      requires Valid()
      modifies connections.Values
      ensures connections == old(connections)
      ensures forall c :: c in connections.Values ==> c.closed
    {
      var pending := connections.Values;
      while pending != {}
        invariant pending <= connections.Values
        invariant forall c :: c in connections.Values - pending ==> c.closed
        decreases pending
      {
        var c :| c in pending;
        c.Close();
        pending := pending - {c};
      }
    }
  }

  /** The client: open while it holds a session. */
  class Http {
    var session: Session?

    ghost predicate Valid()
      reads this, session
    {
      session != null ==> session.Valid()
    }

    predicate Closed()
      reads this
    {
      session == null
    }

    constructor ()
      ensures Valid() && Closed()
    {
      session := null;
    }

    /** `open`: a new, empty session replaces the current one. */
    method Open()
      modifies this
      ensures Valid() && !Closed()
      ensures fresh(session) && session.connections == map[]
    {
      session := new Session();
    }

    /** `close`: nothing when already closed; otherwise closes every connection of
        the session and drops the session. */
    method Close()
      requires Valid()
      modifies this, if session == null then {} else session.connections.Values
      ensures Valid() && Closed()
      ensures old(session) == null ==> unchanged(this)
      ensures old(session) != null ==> forall c :: c in old(session.connections.Values) ==> c.closed
    {
      if session != null {
        session.Close();
        session := null;
      }
    }

    /** `request`: delegates to the session; a closed client has none. */
    method Request(url: Url, status: int, raiseForStatus: bool) returns (r: Result<Response, HttpError>)
      requires Valid()
      modifies session
      ensures Valid() && session == old(session)
      ensures old(session) == null ==> r == Err(ClientClosed)
      ensures old(session) != null ==> TableAfterRequest(old(session.connections), session.connections, url)
      ensures old(session) != null && (url.netloc, url.scheme) !in old(session.connections) && SupportedScheme(url.scheme) ==>
        fresh(session.connections[(url.netloc, url.scheme)]) && !session.connections[(url.netloc, url.scheme)].closed
      ensures old(session) != null ==>
        (r == Err(UnexpectedScheme(url.scheme)) <==>
          (url.netloc, url.scheme) !in old(session.connections) && !SupportedScheme(url.scheme))
      ensures old(session) != null && ((url.netloc, url.scheme) in old(session.connections) || SupportedScheme(url.scheme)) ==>
        r == if RaisesForStatus(raiseForStatus, status) then Err(BadStatus(status)) else Ok(Response(status))
    {
      if session == null {
        return Err(ClientClosed);
      }
      r := session.Request(url, status, raiseForStatus);
    }

    /** `download`: a request that always checks the status; writing the body to
        the destination file is not modelled. */
    method Download(url: Url, status: int) returns (r: Result<Response, HttpError>)
      requires Valid()
      modifies session
      ensures Valid() && session == old(session)
      ensures old(session) == null ==> r == Err(ClientClosed)
      ensures old(session) != null ==> TableAfterRequest(old(session.connections), session.connections, url)
      ensures old(session) != null && (url.netloc, url.scheme) !in old(session.connections) && SupportedScheme(url.scheme) ==>
        fresh(session.connections[(url.netloc, url.scheme)]) && !session.connections[(url.netloc, url.scheme)].closed
      ensures old(session) != null ==>
        (r == Err(UnexpectedScheme(url.scheme)) <==>
          (url.netloc, url.scheme) !in old(session.connections) && !SupportedScheme(url.scheme))
      ensures old(session) != null && ((url.netloc, url.scheme) in old(session.connections) || SupportedScheme(url.scheme)) ==>
        r == if 200 <= status < 300 then Ok(Response(status)) else Err(BadStatus(status))
      ensures r.Ok? ==> 200 <= status < 300 && r.value.status == status
      ensures old(session) != null && SupportedScheme(url.scheme) ==> (r.Ok? <==> 200 <= status < 300)
    {
      r := Request(url, status, true);
    }
  }
}
