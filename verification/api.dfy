/**
 The `API` marker of the daemon: the decorator that tags methods for remote
 calls, the attribute it leaves on the decorated function, and the lookup of
 all tagged members of a class.

 Python's introspection (`setattr`, `getattr`, `inspect.getmembers`) is modelled
 by a `Function` record carrying its marker attribute and by a class given as
 the list of its members in the order `inspect.getmembers` yields them.
 */
module Api {
  import opened PyRuntime

  /** `API.DEFAULT_API_ID`: the id both daemon operations are decorated with. */
  const DEFAULT_API_ID: string := ""

  /** The `api` attribute a decorator computes when applied: its own id when that
      id is non-empty, otherwise whatever marker the decorated function carried. */
  datatype ApiRef = OwnId(id: string) | Inherited(marker: Option<Marker>)

  /** An `API` instance after it has been applied to a function: the `api_id` it
      was built with, its computed `api`, and the qualified name of `func`. */
  datatype Marker = Marker(apiId: string, api: ApiRef, funcQualname: string)

  /** A function object: `__qualname__`, the marker attribute (absent when
      `getattr` would fall back to `None`) and its behaviour. */
  datatype Function = Function(qualname: string, marker: Option<Marker>, body: Callable)

  /** A class attribute as `inspect.getmembers` lists it: plain functions are
      what the `inspect.isfunction` filter keeps. */
  datatype Attr = FunctionAttr(f: Function) | OtherAttr
  datatype Member = Member(name: string, attr: Attr)

  /** `API.api_id`: the identifier generated for a function. */
  function ApiId(f: Function): string {
    f.qualname
  }

  /** `API.get_api`: the marker attribute of a function, if any. */
  function GetApi(f: Function): Option<Marker> {
    f.marker
  }

  /** `API.set_api`: the attribute reads back and nothing else about the
      function changes. */
  function SetApi(f: Function, m: Marker): (g: Function)
    ensures GetApi(g) == Some(m)
    ensures ApiId(g) == ApiId(f)
    ensures forall args, kwargs :: g.body(args, kwargs) == f.body(args, kwargs)
  {
    f.(marker := Some(m))
  }

  /** The wrapper's treatment of the wrapped call's outcome: the return value is
      dropped, an exception passes through unchanged. */
  function DropResult(r: Result<Value>): Result<Value> {
    match r
    case Ok(_) => Ok(VNone)
    case Err(e) => Err(e)
  }

  /** The `api` attribute computed by `API.__call__`. */
  function ApiRefFor(apiId: string, f: Function): ApiRef {
    if apiId != "" then OwnId(apiId) else Inherited(GetApi(f))
  }

  /** `API(api_id)(func)`: a wrapper with the name of `func` (`functools.wraps`)
      that forwards every argument to `func`, always yields `None`, and carries
      the decorator as its marker. */
  function Decorate(apiId: string, f: Function): (w: Function)
    ensures ApiId(w) == ApiId(f)
    ensures GetApi(w).Some?
    ensures GetApi(w).value.apiId == apiId && GetApi(w).value.funcQualname == ApiId(f)
    ensures apiId != "" ==> GetApi(w).value.api == OwnId(apiId)
    ensures apiId == "" ==> GetApi(w).value.api == Inherited(GetApi(f))
    ensures forall args, kwargs :: f.body(args, kwargs).Ok? ==> w.body(args, kwargs) == Ok(VNone)
    ensures forall args, kwargs :: f.body(args, kwargs).Err? ==> w.body(args, kwargs) == f.body(args, kwargs)
  {
    var marker := Marker(apiId, ApiRefFor(apiId, f), f.qualname);
    // functools.wraps copies __qualname__ and the attribute dictionary
    var wrapper := Function(f.qualname, f.marker, (args: Args, kwargs: Kwargs) => DropResult(f.body(args, kwargs)));
    SetApi(wrapper, marker)
  }

  /** The marker of a member that passes the `inspect.isfunction` filter. */
  function MarkerOf(m: Member): Option<Marker> {
    match m.attr
    case FunctionAttr(f) => GetApi(f)
    case OtherAttr => None
  }

  /** `API.get_apis`: the markers of the function members that carry one, in
      member order, and nothing else. */
  function GetApis(members: seq<Member>): (apis: seq<Marker>)
    ensures |apis| <= |members|
    ensures forall i :: 0 <= i < |members| && MarkerOf(members[i]).Some? ==> MarkerOf(members[i]).value in apis
    ensures forall a :: a in apis ==> exists i :: 0 <= i < |members| && MarkerOf(members[i]) == Some(a)
  {
    if members == [] then []
    else
      var rest := GetApis(members[1..]);
      assert forall i :: 1 <= i < |members| ==> members[i] == members[1..][i - 1];
      match MarkerOf(members[0])
      case Some(a) => [a] + rest
      case None => rest
  }

  /** `get_apis` distributes over concatenation of member lists, so the markers
      keep the relative order of their members. */
  lemma {:induction false} GetApisAppend(xs: seq<Member>, ys: seq<Member>)
    ensures GetApis(xs + ys) == GetApis(xs) + GetApis(ys)
  {
    if xs == [] {
      assert xs + ys == ys;
    } else {
      assert (xs + ys)[1..] == xs[1..] + ys;
      GetApisAppend(xs[1..], ys);
    }
  }

  /** The markers one member contributes to `get_apis`: its own, or none. */
  function Contribution(m: Member): seq<Marker> {
    if MarkerOf(m).Some? then [MarkerOf(m).value] else []
  }

  /** Listing one more member extends `get_apis` by exactly that member's
      marker, if it has one: so each marked member yields one marker, in member
      order, and nothing else appears. */
  lemma GetApisSnoc(members: seq<Member>, m: Member)
    ensures GetApis(members + [m]) == GetApis(members) + Contribution(m)
  {
    GetApisAppend(members, [m]);
    assert GetApis([m]) == Contribution(m) by {
      assert [m][1..] == [];
    }
  }

  /** A function body that raises `NotImplementedError()`. */
  function NotImplemented(): Callable {
    (args: Args, kwargs: Kwargs) => Err(Exc(Error, ""))
  }

  /** A function body that returns `None`. */
  function ReturnsNone(): Callable {
    (args: Args, kwargs: Kwargs) => Ok(VNone)
  }

  function Plain(qualname: string, body: Callable): Function {
    Function(qualname, None, body)
  }

  /** Members that carry no marker contribute nothing to `get_apis`. */
  lemma GetApisOfUnmarked(members: seq<Member>)
    requires forall i :: 0 <= i < |members| ==> MarkerOf(members[i]).None?
    ensures GetApis(members) == []
  {
    if GetApis(members) != [] {
      assert false;
    }
  }

  /** The members of class `Daemon` that `inspect.getmembers` lists, sorted by
      name: first the attributes without a marker, then `poweroff` and `reboot`,
      decorated with `DEFAULT_API_ID`. Only the markers matter to `get_apis`;
      the bodies are placeholders, and `__enter__`, which returns `self`, is
      given `ReturnsNone()` because no `Value` stands for the instance. */
  function DaemonClass(): seq<Member> {
    DaemonPlainMembers() + DaemonApiMembers()
  }

  function DaemonPlainMembers(): seq<Member> {
    [ Member("_LOG", OtherAttr),
      Member("__enter__", FunctionAttr(Plain("Daemon.__enter__", ReturnsNone()))),
      Member("__exit__", FunctionAttr(Plain("Daemon.__exit__", ReturnsNone()))),
      Member("__init__", FunctionAttr(Plain("Daemon.__init__", ReturnsNone()))),
      Member("_poweroff", FunctionAttr(Plain("Daemon._poweroff", NotImplemented()))),
      Member("_reboot", FunctionAttr(Plain("Daemon._reboot", NotImplemented()))),
      Member("close", FunctionAttr(Plain("Daemon.close", ReturnsNone()))),
      Member("open", FunctionAttr(Plain("Daemon.open", ReturnsNone())))
    ]
  }

  function DaemonApiMembers(): seq<Member> {
    [ Member("poweroff", FunctionAttr(Decorate(DEFAULT_API_ID, Plain("Daemon.poweroff", NotImplemented())))),
      Member("reboot", FunctionAttr(Decorate(DEFAULT_API_ID, Plain("Daemon.reboot", NotImplemented()))))
    ]
  }

  /** A function without a marker, decorated with the default id, carries a
      marker with no id of its own. */
  lemma DefaultDecoratedMarker(f: Function)
    requires GetApi(f).None?
    ensures GetApi(Decorate(DEFAULT_API_ID, f)) == Some(Marker(DEFAULT_API_ID, Inherited(None), ApiId(f)))
  {
  }

  lemma DaemonApiMarkers()
    ensures GetApis(DaemonApiMembers()) == [ Marker(DEFAULT_API_ID, Inherited(None), "Daemon.poweroff"),
                                             Marker(DEFAULT_API_ID, Inherited(None), "Daemon.reboot") ]
  {
    var apis := DaemonApiMembers();
    DefaultDecoratedMarker(Plain("Daemon.poweroff", NotImplemented()));
    DefaultDecoratedMarker(Plain("Daemon.reboot", NotImplemented()));
    assert MarkerOf(apis[1]) == Some(Marker(DEFAULT_API_ID, Inherited(None), "Daemon.reboot"));
    assert GetApis(apis[1..][1..]) == [];
    assert GetApis(apis[1..]) == [Marker(DEFAULT_API_ID, Inherited(None), "Daemon.reboot")];
  }

  /** The daemon exposes exactly `poweroff` and `reboot`; since both are
      decorated with the empty default id, neither marker carries an id of its
      own: only `API.api_id` of the wrappers tells them apart. */
  lemma DaemonApis()
    ensures GetApis(DaemonClass()) == [ Marker(DEFAULT_API_ID, Inherited(None), "Daemon.poweroff"),
                                        Marker(DEFAULT_API_ID, Inherited(None), "Daemon.reboot") ]
  {
    var plain := DaemonPlainMembers();
    assert forall i :: 0 <= i < |plain| ==> MarkerOf(plain[i]).None?;
    GetApisOfUnmarked(plain);
    DaemonApiMarkers();
    GetApisAppend(plain, DaemonApiMembers());
    assert GetApis(DaemonClass()) == [] + GetApis(DaemonApiMembers());
  }
}
