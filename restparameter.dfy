/** rest/parameter.go: reading query and path parameters of a request. The library parsers
    (strconv.Atoi, strconv.ParseInt, strconv.ParseBool, uuid.FromString) are function
    parameters that either produce a value or report their error's text. */
module RestParameter {
  import opened Common
  import opened GoStrings
  import opened Ferrors
  import opened HttpErrors

  /** The parts of an *http.Request the helpers read: the URL query (a key may carry several
      values) and the path variables the gorilla/mux router extracted. */
  datatype Request = Request(query: map<string, seq<string>>, vars: map<string, string>)

  /** A Go function's (value, error) result pair. */
  datatype Ret<T> = Ret(value: T, err: Error)

  /** A UUID: 128 bits. */
  datatype UUID = UUID(hi: bv64, lo: bv64)
  const NilUUID := UUID(0, 0)

  /** url.Values.Get: the first value of the key, "" when it has none. */
  function QueryGet(r: Request, param: string): (v: string)
    ensures v != "" ==> param in r.query && |r.query[param]| > 0 && v == r.query[param][0]
    ensures param in r.query && |r.query[param]| > 0 ==> v == r.query[param][0]
  {
    if param in r.query && |r.query[param]| > 0 then r.query[param][0] else ""
  }

  /** missingParameterErr: a BadRequest around the plain error "missing <param> parameter". */
  function MissingParameterErr(param: string): (e: Error)
    ensures Renders(e) && Text(e) == "missing " + param + " parameter"
    ensures HttpStatusCode(e) == 400 && e.BadRequestErr? && GetFields(e) == None
  {
    NewBadRequest(Plain("missing " + param + " parameter"))
  }

  /** badRequestErr(err, format, args...), with `m` the already formatted message: a BadRequest
      around the plain error "Err: <err> message <m>". The cause is plain, so no field map. */
  function BadRequestErr(err: Error, m: string): (e: Error)
    requires Renders(err)
    ensures Renders(e) && Text(e) == "Err: " + Text(err) + " message " + m
    ensures HttpStatusCode(e) == 400 && e.BadRequestErr? && GetFields(e) == None
  {
    NewBadRequest(Plain("Err: " + Text(err) + " message " + m))
  }

  /** getParam: a non-empty query value wins; otherwise the path variable, even an empty one;
      otherwise the missing-parameter error. */
  function GetParam(r: Request, param: string): (res: Ret<string>)
    ensures res.err == Nil <==> QueryGet(r, param) != "" || param in r.vars
    ensures QueryGet(r, param) != "" ==> res.value == QueryGet(r, param)
    ensures QueryGet(r, param) == "" && param in r.vars ==> res.value == r.vars[param]
    ensures res.err != Nil ==> res == Ret("", MissingParameterErr(param))
  {
    var v := QueryGet(r, param);
    if v == "" then
      if param !in r.vars then Ret("", MissingParameterErr(param))
      else Ret(r.vars[param], Nil)
    else Ret(v, Nil)
  }

  /** The query string shadows the path only when its value is non-empty. */
  lemma QueryShadowsPath(r: Request, param: string, qv: string, pv: string)
    requires param in r.vars && r.vars[param] == pv
    ensures GetParam(r.(query := r.query[param := [qv]]), param).value == (if qv == "" then pv else qv)
  {
  }

  /** GetString is getParam. */
  function GetString(r: Request, param: string): (res: Ret<string>)
    ensures res == GetParam(r, param)
  {
    GetParam(r, param)
  }

  /** GetStringList: the raw parameter split on ","; an empty list with the error when missing. */
  function GetStringList(r: Request, param: string): (res: Ret<seq<string>>)
    ensures res.err == GetParam(r, param).err
    ensures res.err != Nil ==> res.value == []
    ensures res.err == Nil ==>
      && |res.value| >= 1
      && Join(res.value, ",") == GetParam(r, param).value
      && forall k :: 0 <= k < |res.value| ==> ',' !in res.value[k]
  {
    var p := GetParam(r, param);
    if p.err != Nil then Ret([], p.err)
    else
      JoinSplit(p.value, ',');
      SplitPiecesHaveNoSeparator(p.value, ',');
      Ret(Split(p.value, ','), Nil)
  }

  /** atoi: strconv.Atoi, its failure turned into a BadRequest "... <param> must be an int". */
  function Atoi(param: string, value: string, strconvAtoi: string -> Result<int>): (res: Ret<int>)
    ensures strconvAtoi(value).Ok? ==> res == Ret(strconvAtoi(value).value, Nil)
    ensures strconvAtoi(value).Fail? ==>
      res.value == 0 && HttpStatusCode(res.err) == 400 && Renders(res.err)
      && Text(res.err) == "Err: " + strconvAtoi(value).reason + " message " + param + " must be an int"
  {
    match strconvAtoi(value)
    case Ok(v) => Ret(v, Nil)
    case Fail(reason) => Ret(0, BadRequestErr(Plain(reason), param + " must be an int"))
  }

  /** atoi64: strconv.ParseInt(value, 10, 64), failing with "... <param> must be an int64". */
  function Atoi64(param: string, value: string, parseInt64: string -> Result<int>): (res: Ret<int>)
    ensures parseInt64(value).Ok? ==> res == Ret(parseInt64(value).value, Nil)
    ensures parseInt64(value).Fail? ==>
      res.value == 0 && HttpStatusCode(res.err) == 400 && Renders(res.err)
      && Text(res.err) == "Err: " + parseInt64(value).reason + " message " + param + " must be an int64"
  {
    match parseInt64(value)
    case Ok(v) => Ret(v, Nil)
    case Fail(reason) => Ret(0, BadRequestErr(Plain(reason), param + " must be an int64"))
  }

  /** GetInt: a parse failure is atoi's BadRequest wrapped in a second BadRequest. */
  function GetInt(r: Request, param: string, strconvAtoi: string -> Result<int>): (res: Ret<int>)
    ensures GetParam(r, param).err != Nil ==> res == Ret(0, GetParam(r, param).err)
    ensures GetParam(r, param).err == Nil && strconvAtoi(GetParam(r, param).value).Ok? ==>
      res == Ret(strconvAtoi(GetParam(r, param).value).value, Nil)
    ensures GetParam(r, param).err == Nil && strconvAtoi(GetParam(r, param).value).Fail? ==>
      res == Ret(0, BadRequestErr(Atoi(param, GetParam(r, param).value, strconvAtoi).err, param + " must be integer"))
  {
    var p := GetParam(r, param);
    if p.err != Nil then Ret(0, p.err)
    else
      var a := Atoi(param, p.value, strconvAtoi);
      if a.err != Nil then Ret(0, BadRequestErr(a.err, param + " must be integer"))
      else Ret(a.value, Nil)
  }

  /** The text of GetInt's parse failure nests atoi's text inside its own, and dispatches to 400. */
  lemma GetIntFailureText(r: Request, param: string, strconvAtoi: string -> Result<int>)
    requires GetParam(r, param).err == Nil && strconvAtoi(GetParam(r, param).value).Fail?
    ensures var e := GetInt(r, param, strconvAtoi).err;
      && Renders(e) && HttpStatusCode(e) == 400
      && Text(e) == "Err: " + ("Err: " + strconvAtoi(GetParam(r, param).value).reason + " message "
                               + param + " must be an int") + " message " + param + " must be integer"
  {
  }

  /** GetIntOrDefault: the default together with the error whenever the parameter is missing
      or not an integer; otherwise the parsed value and nil. */
  function GetIntOrDefault(r: Request, param: string, defaultValue: int,
                           strconvAtoi: string -> Result<int>): (res: Ret<int>)
    ensures res.err != Nil ==> res.value == defaultValue
    ensures res.err == Nil <==> GetParam(r, param).err == Nil && strconvAtoi(GetParam(r, param).value).Ok?
    ensures res.err == Nil ==> res.value == strconvAtoi(GetParam(r, param).value).value
    ensures GetParam(r, param).err != Nil ==> res.err == MissingParameterErr(param)
    ensures GetParam(r, param).err == Nil && res.err != Nil ==>
      res.err == Atoi(param, GetParam(r, param).value, strconvAtoi).err
  {
    var p := GetParam(r, param);
    if p.err != Nil then Ret(defaultValue, p.err)
    else
      var a := Atoi(param, p.value, strconvAtoi);
      if a.err != Nil then Ret(defaultValue, a.err)
      else Ret(a.value, Nil)
  }

  /** GetInt64: getParam then atoi64, whose error is returned unchanged. */
  function GetInt64(r: Request, param: string, parseInt64: string -> Result<int>): (res: Ret<int>)
    ensures GetParam(r, param).err != Nil ==> res == Ret(0, GetParam(r, param).err)
    ensures GetParam(r, param).err == Nil ==> res == Atoi64(param, GetParam(r, param).value, parseInt64)
  {
    var p := GetParam(r, param);
    if p.err != Nil then Ret(0, p.err) else Atoi64(param, p.value, parseInt64)
  }

  /** GetUUID: a parse failure is a BadRequest "... <param> must be an UUIDv4". */
  function GetUUID(r: Request, param: string, fromString: string -> Result<UUID>): (res: Ret<UUID>)
    ensures res.err != Nil ==> res.value == NilUUID
    ensures GetParam(r, param).err != Nil ==> res.err == GetParam(r, param).err
    ensures GetParam(r, param).err == Nil ==>
      match fromString(GetParam(r, param).value)
      case Ok(id) => res == Ret(id, Nil)
      case Fail(reason) => res.err == BadRequestErr(Plain(reason), param + " must be an UUIDv4")
  {
    var p := GetParam(r, param);
    if p.err != Nil then Ret(NilUUID, p.err)
    else match fromString(p.value)
      case Ok(id) => Ret(id, Nil)
      case Fail(reason) => Ret(NilUUID, BadRequestErr(Plain(reason), param + " must be an UUIDv4"))
  }

  /** GetBool: a parse failure is a BadRequest "... <param> must be a bool". */
  function GetBool(r: Request, param: string, parseBool: string -> Result<bool>): (res: Ret<bool>)
    ensures res.err != Nil ==> !res.value
    ensures GetParam(r, param).err != Nil ==> res.err == GetParam(r, param).err
    ensures GetParam(r, param).err == Nil ==>
      match parseBool(GetParam(r, param).value)
      case Ok(b) => res == Ret(b, Nil)
      case Fail(reason) => res.err == BadRequestErr(Plain(reason), param + " must be a bool")
  {
    var p := GetParam(r, param);
    if p.err != Nil then Ret(false, p.err)
    else match parseBool(p.value)
      case Ok(b) => Ret(b, Nil)
      case Fail(reason) => Ret(false, BadRequestErr(Plain(reason), param + " must be a bool"))
  }

  // ---------------------------------------------------------------------------------------
  // GetUUIDList

  /** Parsing the pieces in order: the ids, or the error text of the first piece that fails. */
  function ParseIds(parts: seq<string>, fromString: string -> Result<UUID>): (res: Result<seq<UUID>>)
    ensures res.Ok? ==> |res.value| == |parts|
    decreases |parts|
  {
    if parts == [] then Ok([])
    else
      match ParseIds(parts[..|parts| - 1], fromString)
      case Fail(reason) => Fail(reason)
      case Ok(ids) =>
        match fromString(parts[|parts| - 1])
        case Fail(reason) => Fail(reason)
        case Ok(id) => Ok(ids + [id])
  }

  /** ParseIds succeeds with the piece-by-piece parses exactly when every piece parses, and
      otherwise reports the error of the first piece that does not. */
  lemma {:induction false} ParseIdsMeaning(parts: seq<string>, fromString: string -> Result<UUID>)
    ensures var res := ParseIds(parts, fromString);
      && (res.Ok? ==>
            && |res.value| == |parts|
            && forall k :: 0 <= k < |parts| ==> fromString(parts[k]) == Ok(res.value[k]))
      && (res.Fail? ==>
            exists k :: (&& 0 <= k < |parts|
                         && fromString(parts[k]) == Fail(res.reason)
                         && forall j :: 0 <= j < k ==> fromString(parts[j]).Ok?))
    decreases |parts|
  {
    if parts != [] {
      var init := parts[..|parts| - 1];
      ParseIdsMeaning(init, fromString);
      var last := |parts| - 1;
      assert forall k :: 0 <= k < last ==> parts[k] == init[k];
      match ParseIds(init, fromString)
      case Fail(reason) =>
        var k :| 0 <= k < |init| && fromString(init[k]) == Fail(reason)
          && (forall j :: 0 <= j < k ==> fromString(init[j]).Ok?);
        assert fromString(parts[k]) == Fail(reason);
      case Ok(ids) =>
        match fromString(parts[last])
        case Fail(reason) =>
          assert forall j :: 0 <= j < last ==> fromString(parts[j]).Ok?;
        case Ok(id) =>
    }
  }

  /** Extending the pieces by one: the first failure stays, or the new piece's parse decides. */
  lemma ParseIdsStep(parts: seq<string>, i: nat, fromString: string -> Result<UUID>)
    requires i < |parts|
    ensures ParseIds(parts[..i + 1], fromString) ==
      match ParseIds(parts[..i], fromString)
      case Fail(reason) => Fail(reason)
      case Ok(ids) =>
        match fromString(parts[i])
        case Fail(reason) => Fail(reason)
        case Ok(id) => Ok(ids + [id])
  {
    assert parts[..i + 1][..i] == parts[..i];
    assert parts[..i + 1][i] == parts[i];
  }

  /** Once a prefix fails to parse, every longer prefix fails with the same error. */
  lemma {:induction false} LaterFailureAborts(parts: seq<string>, i: nat, fromString: string -> Result<UUID>, reason: string)
    requires i <= |parts|
    requires ParseIds(parts[..i], fromString) == Fail(reason)
    ensures ParseIds(parts, fromString) == Fail(reason)
    decreases |parts| - i
  {
    if i < |parts| {
      ParseIdsStep(parts, i, fromString);
      LaterFailureAborts(parts, i + 1, fromString, reason);
    } else {
      assert parts[..i] == parts;
    }
  }

  predicate NoDuplicates(s: seq<UUID>)
  {
    forall i, j :: 0 <= i < j < |s| ==> s[i] != s[j]
  }

  /** The distinct ids of a list. */
  function Elems(s: seq<UUID>): set<UUID>
  {
    set k | 0 <= k < |s| :: s[k]
  }

  lemma ElemsAppend(s: seq<UUID>, x: UUID)
    ensures Elems(s + [x]) == Elems(s) + {x}
    ensures forall y :: y in Elems(s) <==> y in s
  {
    var t := s + [x];
    assert t[|s|] == x;
    assert forall k :: 0 <= k < |s| ==> t[k] == s[k];
    forall y | y in Elems(s) ensures y in s {
      var k :| 0 <= k < |s| && s[k] == y;
    }
  }

  /** A list has at least as many entries as distinct ones, exactly as many when no id repeats. */
  lemma {:induction false} ElemsBound(s: seq<UUID>)
    ensures |Elems(s)| <= |s|
    ensures NoDuplicates(s) ==> |Elems(s)| == |s|
    decreases |s|
  {
    if s == [] {
      assert Elems(s) == {};
    } else {
      var init := s[..|s| - 1];
      var x := s[|s| - 1];
      assert init + [x] == s;
      ElemsAppend(init, x);
      ElemsBound(init);
      if NoDuplicates(s) {
        assert NoDuplicates(init);
        assert x !in init;
      }
    }
  }

  /** The array GetUUIDList fills: the id at the index of its first occurrence, and the zero
      value uuid.Nil at every index whose id occurred before. */
  function KeepFirst(parsed: seq<UUID>): (r: seq<UUID>)
    ensures |r| == |parsed|
  {
    seq(|parsed|, k requires 0 <= k < |parsed| => if parsed[k] in parsed[..k] then NilUUID else parsed[k])
  }

  lemma KeepFirstAppend(s: seq<UUID>, x: UUID)
    ensures KeepFirst(s + [x]) == KeepFirst(s) + [if x in s then NilUUID else x]
  {
    var t := s + [x];
    assert t[..|s|] == s;
    forall k | 0 <= k < |s| ensures KeepFirst(t)[k] == KeepFirst(s)[k] {
      assert t[..k] == s[..k];
    }
  }

  /** One step of the GetUUIDList loop, stated on the set: a repeated id leaves the set as it is
      and puts the zero UUID in its slot. */
  lemma PlaceStep(parsed: seq<UUID>, setIDs: set<UUID>, id: UUID)
    requires setIDs == Elems(parsed)
    ensures Elems(parsed + [id]) == setIDs + {id}
    ensures KeepFirst(parsed + [id]) == KeepFirst(parsed) + [if id in setIDs then NilUUID else id]
  {
    ElemsAppend(parsed, id);
    KeepFirstAppend(parsed, id);
  }

  /** What GetUUIDList returns for successfully parsed ids: the filled array cut to the number
      of distinct ids. */
  function UUIDListAsWritten(parsed: seq<UUID>): (r: seq<UUID>)
    ensures |r| == |Elems(parsed)| <= |parsed|
    ensures r == KeepFirst(parsed)[..|r|]
  {
    ElemsBound(parsed);
    KeepFirst(parsed)[..|Elems(parsed)|]
  }

  /** The state of GetUUIDList's array after i ids: each slot before i holds the id parsed there
      at its first occurrence and the zero UUID otherwise, the slots from i on are still zero, and
      the set holds the ids seen. */
  ghost predicate Placed(a: seq<UUID>, i: nat, parsed: seq<UUID>, setIDs: set<UUID>)
  {
    && i <= |a| && |parsed| == i
    && setIDs == Elems(parsed)
    && a[..i] == KeepFirst(parsed)
    && forall k :: i <= k < |a| ==> a[k] == NilUUID
  }

  /** The body of the GetUUIDList loop for a successfully parsed id: record it in the set and the
      array unless the set already holds it. */
  method PlaceId(ids: array<UUID>, i: nat, ghost parsed: seq<UUID>, setIDs: set<UUID>, id: UUID)
    returns (setIDs': set<UUID>)
    modifies ids
    requires i < ids.Length && Placed(ids[..], i, parsed, setIDs)
    ensures Placed(ids[..], i + 1, parsed + [id], setIDs')
  {
    PlaceStep(parsed, setIDs, id);
    setIDs' := setIDs;
    if id !in setIDs {
      setIDs' := setIDs + {id};
      ids[i] := id;
    }
    assert ids[..i + 1] == ids[..i] + [ids[i]];
  }

  /** The loop of GetUUIDList: parse each piece into a preallocated array, skipping ids already
      in the set, and cut the array to the size of the set. */
  method PlaceFirstOccurrences(paramIDs: seq<string>, fromString: string -> Result<UUID>)
    returns (res: Result<seq<UUID>>)
    ensures ParseIds(paramIDs, fromString).Fail? ==> res == ParseIds(paramIDs, fromString)
    ensures ParseIds(paramIDs, fromString).Ok? ==> res == Ok(UUIDListAsWritten(ParseIds(paramIDs, fromString).value))
  {
    var n := |paramIDs|;
    var ids := new UUID[n](_ => NilUUID);
    var setIDs: set<UUID> := {};
    ghost var parsed: seq<UUID> := [];
    var i := 0;
    while i < n
      invariant i <= n == ids.Length
      invariant ParseIds(paramIDs[..i], fromString) == Ok(parsed)
      invariant Placed(ids[..], i, parsed, setIDs)
    {
      ParseIdsStep(paramIDs, i, fromString);
      var r := fromString(paramIDs[i]);
      if r.Fail? {
        LaterFailureAborts(paramIDs, i + 1, fromString, r.reason);
        return Fail(r.reason);
      }
      setIDs := PlaceId(ids, i, parsed, setIDs, r.value);
      parsed := parsed + [r.value];
      i := i + 1;
    }
    assert paramIDs[..n] == paramIDs;
    ElemsBound(parsed);
    assert ids[..|setIDs|] == ids[..n][..|setIDs|];
    res := Ok(ids[..|setIDs|]);
  }

  /** GetUUIDList: split the parameter on ",", parse each piece (the first failure aborts with an
      empty list and a BadRequest), record each id at its first occurrence only, and return the
      array up to the number of distinct ids. */
  method GetUUIDList(r: Request, param: string, fromString: string -> Result<UUID>)
    returns (ids: seq<UUID>, err: Error)
    ensures GetParam(r, param).err != Nil ==> ids == [] && err == GetParam(r, param).err
    ensures GetParam(r, param).err == Nil ==>
      var parsed := ParseIds(Split(GetParam(r, param).value, ','), fromString);
      && (parsed.Fail? ==>
            ids == [] && err == BadRequestErr(Plain(parsed.reason), param + " must be be an UUIDv4 list"))
      && (parsed.Ok? ==> ids == UUIDListAsWritten(parsed.value) && err == Nil)
  {
    var p := GetParam(r, param);
    if p.err != Nil {
      return [], p.err;
    }
    var paramIDs := Split(p.value, ',');
    var res := PlaceFirstOccurrences(paramIDs, fromString);
    if res.Fail? {
      return [], BadRequestErr(Plain(res.reason), param + " must be be an UUIDv4 list");
    }
    return res.value, Nil;
  }

  /** With no repeated id, GetUUIDList returns the parsed ids in input order. */
  lemma {:induction false} UUIDListWithoutDuplicates(parsed: seq<UUID>)
    requires NoDuplicates(parsed)
    ensures UUIDListAsWritten(parsed) == parsed
  {
    ElemsBound(parsed);
    forall k | 0 <= k < |parsed|
      ensures parsed[k] !in parsed[..k]
    {
      forall j | 0 <= j < k ensures parsed[..k][j] != parsed[k] {
        assert parsed[..k][j] == parsed[j];
      }
    }
  }

  /** The input "a,a,b" gives [a, uuid.Nil]: b is dropped and the zero UUID takes its place. */
  lemma UUIDListWithDuplicate(a: UUID, b: UUID)
    requires a != b
    ensures UUIDListAsWritten([a, a, b]) == [a, NilUUID]
  {
    ElemsAppend([], a);
    assert [] + [a] == [a];
    ElemsAppend([a], a);
    assert [a] + [a] == [a, a];
    ElemsAppend([a, a], b);
    assert [a, a] + [b] == [a, a, b];
    assert Elems([]) == {};
    assert Elems([a, a, b]) == {a, b};
    assert |{a, b}| == 2;
    var s := [a, a, b];
    assert s[..1] == [a] && s[..2] == [a, a];
  }

  // ---------------------------------------------------------------------------------------
  // The evidently intended GetUUIDList: the distinct ids in order of first occurrence.

  /** The distinct ids of a list, each at the place of its first occurrence. */
  function Dedup(s: seq<UUID>): (d: seq<UUID>)
    ensures NoDuplicates(d)
    ensures Elems(d) == Elems(s)
    decreases |s|
  {
    if s == [] then []
    else
      var init := s[..|s| - 1];
      var d := Dedup(init);
      var x := s[|s| - 1];
      ElemsAppend(init, x);
      ElemsAppend(d, x);
      assert init + [x] == s;
      if x in Elems(d) then d else d + [x]
  }

  /** The deduplicated list holds one entry per distinct id, and a list without repeats is
      returned unchanged. */
  lemma DedupProperties(s: seq<UUID>)
    ensures |Dedup(s)| == |Elems(s)|
    ensures NoDuplicates(s) ==> Dedup(s) == s
  {
    ElemsBound(Dedup(s));
    if NoDuplicates(s) {
      DedupKeepsDistinct(s);
    }
  }

  /** Dedup of a list without its last id is a prefix of Dedup of the list, and a new last id
      is appended to it. */
  lemma DedupExtends(s: seq<UUID>)
    requires s != []
    ensures var d := Dedup(s[..|s| - 1]);
      && |d| <= |Dedup(s)| && Dedup(s)[..|d|] == d
      && (s[|s| - 1] !in s[..|s| - 1] ==> Dedup(s) == d + [s[|s| - 1]])
  {
    ElemsAppend(Dedup(s[..|s| - 1]), s[|s| - 1]);
    ElemsAppend(s[..|s| - 1], s[|s| - 1]);
  }

  /** The order of Dedup: an id whose first occurrence is at k sits at the position given by
      the number of distinct ids before k. KeepFirst puts it at k instead. */
  lemma {:induction false} DedupFirstOccurrenceOrder(s: seq<UUID>, k: nat)
    requires k < |s| && s[k] !in s[..k]
    ensures |Elems(s[..k])| < |Dedup(s)| && Dedup(s)[|Elems(s[..k])|] == s[k]
    decreases |s|
  {
    var init := s[..|s| - 1];
    var d := Dedup(init);
    DedupExtends(s);
    if k == |s| - 1 {
      assert s[..k] == init;
      DedupProperties(init);
    } else {
      assert s[..k] == init[..k];
      DedupFirstOccurrenceOrder(init, k);
      var j := |Elems(s[..k])|;
      assert Dedup(s)[j] == Dedup(s)[..|d|][j];
    }
  }

  lemma {:induction false} DedupKeepsDistinct(s: seq<UUID>)
    requires NoDuplicates(s)
    ensures Dedup(s) == s
    decreases |s|
  {
    if s != [] {
      var init := s[..|s| - 1];
      var x := s[|s| - 1];
      assert forall k :: 0 <= k < |init| ==> init[k] == s[k];
      assert NoDuplicates(init);
      DedupKeepsDistinct(init);
      ElemsAppend(init, x);
      assert x !in init;
      assert init + [x] == s;
    }
  }

  /** The as-written list and the intended one differ as soon as an id repeats before a new
      non-zero one: "a,a,b" loses b. */
  lemma UUIDListDiffersFromDedup(a: UUID, b: UUID)
    requires a != b && b != NilUUID
    ensures UUIDListAsWritten([a, a, b]) != Dedup([a, a, b])
  {
    UUIDListWithDuplicate(a, b);
    var s := [a, a, b];
    assert s[..|s| - 1] == [a, a];
    assert [a, a][..1] == [a];
    assert [a][..0] == [];
    ElemsAppend([], a);
    assert Dedup([a]) == [a];
    ElemsAppend([a], a);
    assert Dedup([a, a]) == [a];
    ElemsAppend([a], b);
    assert Dedup(s) == [a, b];
  }

  /** The loop of the intended GetUUIDList: append each id at its first occurrence. */
  method CollectDistinct(paramIDs: seq<string>, fromString: string -> Result<UUID>)
    returns (res: Result<seq<UUID>>)
    ensures ParseIds(paramIDs, fromString).Fail? ==> res == ParseIds(paramIDs, fromString)
    ensures ParseIds(paramIDs, fromString).Ok? ==> res == Ok(Dedup(ParseIds(paramIDs, fromString).value))
  {
    var n := |paramIDs|;
    var setIDs: set<UUID> := {};
    var ids: seq<UUID> := [];
    ghost var parsed: seq<UUID> := [];
    var i := 0;
    while i < n
      invariant 0 <= i <= n && |parsed| == i
      invariant ParseIds(paramIDs[..i], fromString) == Ok(parsed)
      invariant ids == Dedup(parsed) && setIDs == Elems(parsed)
    {
      ParseIdsStep(paramIDs, i, fromString);
      var r := fromString(paramIDs[i]);
      if r.Fail? {
        LaterFailureAborts(paramIDs, i + 1, fromString, r.reason);
        return Fail(r.reason);
      }
      var id := r.value;
      ElemsAppend(parsed, id);
      assert (parsed + [id])[..i] == parsed;
      parsed := parsed + [id];
      if id !in setIDs {
        setIDs := setIDs + {id};
        ids := ids + [id];
      }
      i := i + 1;
    }
    assert paramIDs[..n] == paramIDs;
    res := Ok(ids);
  }

  /** GetUUIDList as evidently intended: the distinct ids in order of first occurrence. */
  method GetUUIDListDistinct(r: Request, param: string, fromString: string -> Result<UUID>)
    returns (ids: seq<UUID>, err: Error)
    ensures GetParam(r, param).err != Nil ==> ids == [] && err == GetParam(r, param).err
    ensures GetParam(r, param).err == Nil ==>
      var parsed := ParseIds(Split(GetParam(r, param).value, ','), fromString);
      && (parsed.Fail? ==>
            ids == [] && err == BadRequestErr(Plain(parsed.reason), param + " must be be an UUIDv4 list"))
      && (parsed.Ok? ==> ids == Dedup(parsed.value) && err == Nil)
  {
    var p := GetParam(r, param);
    if p.err != Nil {
      return [], p.err;
    }
    var paramIDs := Split(p.value, ',');
    var res := CollectDistinct(paramIDs, fromString);
    if res.Fail? {
      return [], BadRequestErr(Plain(res.reason), param + " must be be an UUIDv4 list");
    }
    return res.value, Nil;
  }
}
