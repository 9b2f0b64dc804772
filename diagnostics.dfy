/**
 * The diagnostic lines the servers write: webserver.cpp's `object_id`
 * (a name with an optional bracketed parameter list, then " : "), its
 * `report` of an exception, and cxx20.cpp's `report`. Both build the
 * bracketed list with a separator that is "[" before the first item and
 * ", " after it. Streams are modelled by the strings they receive.
 */
module Diagnostics {
  import opened AsioErrors

  /** A parameter of `object_id`: a value streamed with its own `<<` (given
      as the text it streams), or a TCP socket, which the socket emitter
      shows by its remote endpoint; `None` is a failed endpoint query. */
  datatype Param = Streamed(text: string) | TcpSocket(remote: Option<string>)

  /** `emitter<T>`: a socket whose remote-endpoint query fails shows as
      "unconnected", a connected one as its endpoint; anything else as
      itself. */
  function Emit(p: Param): string
  {
    match p
    case Streamed(t) => t
    case TcpSocket(remote) =>
      match remote
      case None => "unconnected"
      case Some(ep) => ep
  }

  /** The items with `sep` between neighbours. */
  function Join(sep: string, items: seq<string>): string
    decreases |items|
  {
    if items == [] then ""
    else if |items| == 1 then items[0]
    else items[0] + sep + Join(sep, items[1..])
  }

  function Rendered(params: seq<Param>): (r: seq<string>)
    ensures |r| == |params|
    ensures forall i :: 0 <= i < |r| ==> r[i] == Emit(params[i])
  {
    seq(|params|, i requires 0 <= i < |params| => Emit(params[i]))
  }

  /** "[a, b, c]" for a non-empty list, nothing for an empty one. */
  function Bracketed(items: seq<string>): string
  {
    if items == [] then "" else "[" + Join(", ", items) + "]"
  }

  /** What `operator<<(ostream&, object_id const&)` writes. */
  function ObjectIdText(name: string, params: seq<Param>): string
  {
    name + Bracketed(Rendered(params)) + " : "
  }

  /** Appending an item to a non-empty list appends the separator and the
      item to its joined text. */
  lemma {:induction false} JoinSnoc(sep: string, items: seq<string>, x: string)
    requires items != []
    ensures Join(sep, items + [x]) == Join(sep, items) + sep + x
    decreases |items|
  {
    if |items| == 1 {
      assert items + [x] == [items[0], x];
      assert Join(sep, [x]) == x;
    } else {
      assert (items + [x])[1..] == items[1..] + [x];
      JoinSnoc(sep, items[1..], x);
    }
  }

  /** The text written once the items so far have each been preceded by
      the current separator: "[" before the first, ", " after it. */
  function Opened(items: seq<string>): string
  {
    if items == [] then "" else "[" + Join(", ", items)
  }

  /** Writing one more item after `prefix` and the items so far appends the
      current separator and the item. */
  lemma OpenedSnoc(prefix: string, items: seq<string>, x: string)
    ensures prefix + Opened(items) + (if items == [] then "[" else ", ") + x == prefix + Opened(items + [x])
  {
    if items == [] {
      assert items + [x] == [x];
    } else {
      JoinSnoc(", ", items, x);
    }
  }

  /** Closing a non-empty list with "]" completes its bracketed text. */
  lemma OpenedClose(prefix: string, items: seq<string>)
    requires items != []
    ensures prefix + Opened(items) + "]" == prefix + Bracketed(items)
  {
  }

  /** `object_id`'s `operator<<`: the name, then each parameter preceded by
      the current separator, which turns from "[" to ", " after the first,
      then "]" if there were any, then " : ". */
  method WriteObjectId(name: string, params: seq<Param>) returns (out: string)
    ensures out == ObjectIdText(name, params)
  {
    ghost var written: seq<string> := [];
    out := name;
    if |params| > 0 {
      var sep := "[";
      var i := 0;
      while i < |params|
        invariant 0 <= i <= |params| && |written| == i
        invariant forall j :: 0 <= j < i ==> written[j] == Emit(params[j])
        invariant sep == if i == 0 then "[" else ", "
        invariant out == name + Opened(written)
      {
        var item := Emit(params[i]);
        OpenedSnoc(name, written, item);
        out := out + sep + item;
        sep := ", ";
        written := written + [item];
        i := i + 1;
      }
      OpenedClose(name, written);
      out := out + "]";
    }
    assert written == Rendered(params);
    out := out + " : ";
  }

  lemma ObjectIdWithoutParams(name: string)
    ensures ObjectIdText(name, []) == name + " : "
  {
  }

  lemma ObjectIdOneParam(name: string, p: Param)
    ensures ObjectIdText(name, [p]) == name + "[" + Emit(p) + "] : "
  {
    assert Rendered([p]) == [Emit(p)];
    assert Join(", ", [Emit(p)]) == Emit(p);
  }

  /** A socket whose endpoint query fails shows in an object id as
      "[unconnected]". */
  lemma UnconnectedSocketId(name: string)
    ensures ObjectIdText(name, [TcpSocket(None)]) == name + "[unconnected] : "
  {
    ObjectIdOneParam(name, TcpSocket(None));
    assert "[" + "unconnected" + "] : " == "[unconnected] : ";
    assert name + "[" + "unconnected" + "] : " == name + ("[" + "unconnected" + "] : ");
  }

  /** A connected socket shows in an object id as its bracketed remote
      endpoint. */
  lemma ConnectedSocketId(name: string, ep: string)
    ensures ObjectIdText(name, [TcpSocket(Some(ep))]) == name + "[" + ep + "] : "
  {
    ObjectIdOneParam(name, TcpSocket(Some(ep)));
  }

  /** webserver.cpp's `report`: the object id (which already ends in
      " : "), another " : ", the exception's text and a newline. */
  function Report(what: string, location: string, contexts: seq<Param>): string
  {
    ObjectIdText(location, contexts) + " : " + what + "\n"
  }

  function StreamedAll(idents: seq<string>): (r: seq<Param>)
    ensures |r| == |idents|
    ensures forall i :: 0 <= i < |r| ==> r[i] == Streamed(idents[i])
  {
    seq(|idents|, i requires 0 <= i < |idents| => Streamed(idents[i]))
  }

  /** cxx20.cpp's `report`: the context, the bracketed identifiers if there
      are any, " : " once, the exception's text and a newline. */
  method ReportCxx20(what: string, context: string, idents: seq<string>) returns (out: string)
    ensures out == context + Bracketed(idents) + " : " + what + "\n"
  {
    out := context;
    if |idents| != 0 {
      var sep := "[";
      var i := 0;
      while i < |idents|
        invariant 0 <= i <= |idents|
        invariant sep == if i == 0 then "[" else ", "
        invariant out == context + Opened(idents[..i])
      {
        assert idents[..i + 1] == idents[..i] + [idents[i]];
        OpenedSnoc(context, idents[..i], idents[i]);
        out := out + sep + idents[i];
        sep := ", ";
        i := i + 1;
      }
      assert idents[..i] == idents;
      OpenedClose(context, idents);
      out := out + "]";
    }
    out := out + " : " + what + "\n";
  }

  /** For the same context and identifiers, webserver.cpp's report line is
      cxx20.cpp's with the " : " separator written twice. */
  lemma ReportRepeatsSeparator(what: string, context: string, idents: seq<string>)
    ensures Report(what, context, StreamedAll(idents)) == context + Bracketed(idents) + " : " + " : " + what + "\n"
  {
    assert Rendered(StreamedAll(idents)) == idents;
  }
}
