/**
 * The parts of Go's `net/http` and `net/url` that the service reads and
 * writes: request headers, the request URL, and a response writer that
 * collects what is written to it.
 */
module GoHttp {

  /** `http.Header`: canonical key to the list of its values. */
  type Header = map<string, seq<string>>

  /** The values stored under `key`, none when absent. */
  function HeaderValues(h: Header, key: string): seq<string>
  {
    if key in h then h[key] else []
  }

  /** `Header.Get`: the first value, or "" when there is none. */
  function HeaderGet(h: Header, key: string): (r: string)
    ensures HeaderValues(h, key) == [] ==> r == ""
    ensures HeaderValues(h, key) != [] ==> r == HeaderValues(h, key)[0]
  {
    if key in h && |h[key]| > 0 then h[key][0] else ""
  }

  /** `Header.Set`: replace every value of `key` with `v`. */
  function HeaderSet(h: Header, key: string, v: string): (r: Header)
    ensures r.Keys == h.Keys + {key} && r[key] == [v]
    ensures forall k :: k in h && k != key ==> r[k] == h[k]
  {
    h[key := [v]]
  }

  /** `Header.Add`: append `v` to the values of `key`, keeping the others. */
  function HeaderAdd(h: Header, key: string, v: string): (r: Header)
    ensures r.Keys == h.Keys + {key} && r[key] == HeaderValues(h, key) + [v]
    ensures forall k :: k in h && k != key ==> r[k] == h[k]
  {
    h[key := HeaderValues(h, key) + [v]]
  }

  /** `Get` after `Set` reads the value set; `Get` after `Add` reads the
      added value only when the key had none, and otherwise still reads
      the first value; other keys read as before. */
  lemma HeaderGetAfterUpdate(h: Header, key: string, v: string, other: string)
    ensures HeaderGet(HeaderSet(h, key, v), key) == v
    ensures HeaderGet(HeaderAdd(h, key, v), key)
         == if HeaderValues(h, key) == [] then v else HeaderGet(h, key)
    ensures other != key ==> HeaderGet(HeaderSet(h, key, v), other) == HeaderGet(h, other)
    ensures other != key ==> HeaderGet(HeaderAdd(h, key, v), other) == HeaderGet(h, other)
  {
    assert HeaderValues(HeaderSet(h, key, v), key) == [v];
    assert HeaderValues(HeaderAdd(h, key, v), key) == HeaderValues(h, key) + [v];
    if other != key {
      assert HeaderValues(HeaderSet(h, key, v), other) == HeaderValues(h, other);
      assert HeaderValues(HeaderAdd(h, key, v), other) == HeaderValues(h, other);
    }
  }

  /** `url.URL`, with the user-info reduced to its text form. */
  datatype Url = Url(
    scheme: string, opaquePart: string, user: string, host: string,
    path: string, rawPath: string, rawQuery: string, fragment: string)

  /** The zero `url.URL`. */
  const EmptyUrl := Url("", "", "", "", "", "", "", "")

  /** `*http.Request`: the fields the service reads or rewrites. */
  class Request {
    var url: Url
    var header: Header
    var host: string
    var remoteAddr: string

    constructor (url: Url, header: Header, host: string, remoteAddr: string)
      ensures this.url == url && this.header == header
      ensures this.host == host && this.remoteAddr == remoteAddr
    {
      this.url := url;
      this.header := header;
      this.host := host;
      this.remoteAddr := remoteAddr;
    }
  }

  /** `http.ResponseWriter`: the header map and the bytes written so far. */
  class ResponseWriter {
    var header: Header
    var body: string

    constructor ()
      ensures header == map[] && body == []
    {
      header := map[];
      body := [];
    }

    /** `w.Header().Set(key, v)`. */
    method SetHeader(key: string, v: string)
      modifies this
      ensures header == HeaderSet(old(header), key, v) && body == old(body)
    {
      header := HeaderSet(header, key, v);
    }

    /** `io.WriteString(w, s)`. */
    method WriteString(s: string)
      modifies this
      ensures body == old(body) + s && header == old(header)
    {
      body := body + s;
    }
  }
}
