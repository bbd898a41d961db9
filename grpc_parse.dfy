/**
 * parseGrpcFile: a two-state line scanner over a generated `*_grpc.pb.go` file. It is
 * outside or inside a `type XServer interface {` block; inside, the lines that match
 * the unary-method grammar become ServiceMethod records. The first line that contains
 * `}` ends a block (braces are not counted).
 *
 * The two regular expressions are abstracted by Matchers: `opens` tells whether a line
 * matches the interface-open pattern, `signature` returns the three captures of the
 * method pattern (name, request type, response type) when the line matches it.
 */
module GrpcParse {
  import opened Results
  import opened GoStrings
  import opened Naming

  datatype ServiceMethod = ServiceMethod(
    Name: string,
    RpcName: string,
    RequestType: string,
    ResponseType: string,
    FileName: string)

  /** The captures of the method pattern. */
  datatype Signature = Signature(name: string, request: string, response: string)

  datatype Matchers = Matchers(opens: string -> bool, signature: string -> Option<Signature>)

  /** The record built for a matched method line. */
  function MethodOf(sig: Signature): (m: ServiceMethod)
    ensures m.Name == m.RpcName == sig.name
    ensures m.RequestType == sig.request && m.ResponseType == sig.response
    ensures m.FileName == HandlerFileName(sig.name)
  {
    ServiceMethod(sig.name, sig.name, sig.request, sig.response, HandlerFileName(sig.name))
  }

  /** The scanner's state: inside a service interface or not, and the methods so far. */
  datatype ScanState = ScanState(inside: bool, methods: seq<ServiceMethod>)

  /** One iteration of the scanner's loop. */
  function Step(mt: Matchers, st: ScanState, line: string): ScanState {
    if mt.opens(line) then ScanState(true, st.methods)
    else if st.inside && '}' in line then ScanState(false, st.methods)
    else if st.inside && mt.signature(line).Some? then
      ScanState(true, st.methods + [MethodOf(mt.signature(line).value)])
    else st
  }

  /** The state after scanning the given lines from the start. */
  function Scan(mt: Matchers, lines: seq<string>): ScanState {
    if lines == [] then ScanState(false, [])
    else Step(mt, Scan(mt, lines[..|lines| - 1]), lines[|lines| - 1])
  }

  /** The loop of parseGrpcFile over the lines of the file. */
  method ScanLines(mt: Matchers, lines: seq<string>) returns (methods: seq<ServiceMethod>)
    ensures methods == Scan(mt, lines).methods
  {
    var inside := false;
    methods := [];
    var i := 0;
    while i < |lines|
      invariant 0 <= i <= |lines|
      invariant ScanState(inside, methods) == Scan(mt, lines[..i])
    {
      var line := lines[i];
      assert lines[..i + 1][..i] == lines[..i];
      if mt.opens(line) {
        inside := true;
      } else if inside && '}' in line {
        inside := false;
      } else if inside {
        var sig := mt.signature(line);
        if sig.Some? {
          methods := methods + [MethodOf(sig.value)];
        }
      }
      i := i + 1;
    }
    assert lines[..|lines|] == lines;
  }

  /** parseGrpcFile: the file's text (None when it cannot be read) split into lines and scanned. */
  method ParseGrpcFile(mt: Matchers, path: string, content: Option<string>)
    returns (r: Result<seq<ServiceMethod>>)
    ensures content.None? ==> r == Err(ReadFailed(path))
    ensures content.Some? ==> r == Ok(Scan(mt, Split(content.value, '\n')).methods)
  {
    if content.None? {
      return Err(ReadFailed(path));
    }
    var methods := ScanLines(mt, Split(content.value, '\n'));
    return Ok(methods);
  }

  // ---------------------------------------------------------------------------
  // A reference description of which lines are collected, independent of the scanner.

  /**
   * Line j opens an interface and no line after it, before k, closes it: every later line
   * either opens again or contains no `}`.
   */
  ghost predicate OpenSince(mt: Matchers, lines: seq<string>, j: int, k: int) {
    0 <= j < k <= |lines| && mt.opens(lines[j])
    && forall i :: j < i < k ==> mt.opens(lines[i]) || '}' !in lines[i]
  }

  /** Before line k the scanner is inside an interface block. */
  ghost predicate InsideBefore(mt: Matchers, lines: seq<string>, k: int) {
    exists j :: OpenSince(mt, lines, j, k)
  }

  /**
   * Line k yields a method: it lies strictly inside a block (after an open line, before
   * the closing line, and is neither of them) and matches the method pattern.
   */
  ghost predicate Yields(mt: Matchers, lines: seq<string>, k: int)
    requires 0 <= k < |lines|
  {
    InsideBefore(mt, lines, k) && !mt.opens(lines[k]) && '}' !in lines[k]
    && mt.signature(lines[k]).Some?
  }

  /** The methods of the yielding lines among the first k, in line order. */
  ghost function Collected(mt: Matchers, lines: seq<string>, k: nat): seq<ServiceMethod>
    requires k <= |lines|
  {
    if k == 0 then []
    else
      Collected(mt, lines, k - 1)
      + (if Yields(mt, lines, k - 1) then [MethodOf(mt.signature(lines[k - 1]).value)] else [])
  }

  /** The scanner's flag agrees with the reference description of being inside a block. */
  lemma {:induction false} ScanInside(mt: Matchers, lines: seq<string>, k: nat)
    requires k <= |lines|
    ensures Scan(mt, lines[..k]).inside <==> InsideBefore(mt, lines, k)
  {
    if k == 0 {
      assert !InsideBefore(mt, lines, 0);
    } else {
      ScanInside(mt, lines, k - 1);
      assert lines[..k][..k - 1] == lines[..k - 1];
      var line := lines[k - 1];
      if mt.opens(line) {
        assert OpenSince(mt, lines, k - 1, k);
      } else if InsideBefore(mt, lines, k - 1) && '}' in line {
        forall j | 0 <= j < k
          ensures !OpenSince(mt, lines, j, k)
        {
          if j < k - 1 {
            assert !(mt.opens(lines[k - 1]) || '}' !in lines[k - 1]);
          }
        }
      } else if InsideBefore(mt, lines, k - 1) {
        var j :| OpenSince(mt, lines, j, k - 1);
        assert OpenSince(mt, lines, j, k);
      } else {
        forall j | 0 <= j < k
          ensures !OpenSince(mt, lines, j, k)
        {
          if j < k - 1 && OpenSince(mt, lines, j, k) {
            assert OpenSince(mt, lines, j, k - 1);
          }
        }
      }
    }
  }

  /** The scanner collects exactly the methods of the yielding lines, in line order. */
  lemma {:induction false} ScanCollects(mt: Matchers, lines: seq<string>, k: nat)
    requires k <= |lines|
    ensures Scan(mt, lines[..k]).methods == Collected(mt, lines, k)
  {
    if k > 0 {
      ScanCollects(mt, lines, k - 1);
      ScanInside(mt, lines, k - 1);
      assert lines[..k][..k - 1] == lines[..k - 1];
    }
  }

  /** parseGrpcFile yields exactly the reference methods of the file's lines, in order. */
  lemma ParseIsCollected(mt: Matchers, lines: seq<string>)
    ensures Scan(mt, lines).methods == Collected(mt, lines, |lines|)
  {
    ScanCollects(mt, lines, |lines|);
    assert lines[..|lines|] == lines;
  }

  /** Every method record comes from a yielding line, at or after position 0 and before k. */
  lemma {:induction false} CollectedFromYieldingLines(mt: Matchers, lines: seq<string>, k: nat, n: nat)
    requires k <= |lines|
    requires n < |Collected(mt, lines, k)|
    ensures exists i ::
              0 <= i < k && Yields(mt, lines, i)
              && Collected(mt, lines, k)[n] == MethodOf(mt.signature(lines[i]).value)
  {
    var prev := Collected(mt, lines, k - 1);
    if n < |prev| {
      CollectedFromYieldingLines(mt, lines, k - 1, n);
      var i :| 0 <= i < k - 1 && Yields(mt, lines, i)
        && prev[n] == MethodOf(mt.signature(lines[i]).value);
      assert Collected(mt, lines, k)[n] == prev[n];
    } else {
      assert Yields(mt, lines, k - 1);
    }
  }

  /** Every record has RpcName == Name and the handler file name derived from Name. */
  lemma {:induction false} ScanRecordFields(mt: Matchers, lines: seq<string>)
    ensures forall m :: m in Scan(mt, lines).methods ==>
              m.RpcName == m.Name && m.FileName == "rpc_" + SnakeOf(m.Name) + ".go"
  {
    if lines != [] {
      ScanRecordFields(mt, lines[..|lines| - 1]);
    }
  }

  /** A file without an interface-open line yields no methods (and no error). */
  lemma {:induction false} NoInterfaceNoMethods(mt: Matchers, lines: seq<string>)
    requires forall i :: 0 <= i < |lines| ==> !mt.opens(lines[i])
    ensures Scan(mt, lines) == ScanState(false, [])
  {
    if lines != [] {
      var init := lines[..|lines| - 1];
      assert forall i :: 0 <= i < |init| ==> init[i] == lines[i];
      NoInterfaceNoMethods(mt, init);
    }
  }

  /** Scanning is a left fold: more lines only extend the method list. */
  lemma {:induction false} ScanExtends(mt: Matchers, lines: seq<string>, more: seq<string>)
    ensures Scan(mt, lines).methods <= Scan(mt, lines + more).methods
    decreases |more|
  {
    if more == [] {
      assert lines + more == lines;
    } else {
      var init := more[..|more| - 1];
      assert (lines + more)[..|lines + more| - 1] == lines + init;
      ScanExtends(mt, lines, init);
    }
  }
}
