/** Method routing: full names, the collision pre-scan of the two code generators, and the server's
    handler table keyed by hash.  */
module Routing {
  import opened Hash

  const SLASH: bv8 := 47
  const DOT: bv8 := 46

  /************ Full names ************/

  predicate IdentChar(c: bv8) {
    (48 <= c <= 57) || (65 <= c <= 90) || c == 95 || (97 <= c <= 122)
  }

  // A protobuf identifier, and a package: nothing, or identifiers joined by dots.
  predicate Ident(s: Name) { s != [] && forall i :: 0 <= i < |s| ==> IdentChar(s[i]) }

  predicate Package(s: Name) { forall i :: 0 <= i < |s| ==> IdentChar(s[i]) || s[i] == DOT }

  datatype Method = Method(pkg: Name, service: Name, name: Name)

  predicate WellNamed(m: Method) { Package(m.pkg) && Ident(m.service) && Ident(m.name) }

  // methodFullName of the Go plugin, and the argument of Fnv1a32 in MethodID
  function FullName(m: Method): Name {
    if m.pkg == [] then [SLASH] + m.service + [SLASH] + m.name
    else [SLASH] + m.pkg + [DOT] + m.service + [SLASH] + m.name
  }

  // service_full_name and method_full_name of the C++ plugin
  function ServiceFullName(pkg: Name, svc: Name): Name {
    if pkg == [] then svc else pkg + [DOT] + svc
  }

  function CppFullName(m: Method): Name {
    [SLASH] + ServiceFullName(m.pkg, m.service) + [SLASH] + m.name
  }

  /** "/Greeter/SayHello",  */
  lemma KnownName()
    ensures FullName(Method([], [71, 114, 101, 101, 116, 101, 114], [83, 97, 121, 72, 101, 108, 108, 111])) ==
      [47, 71, 114, 101, 101, 116, 101, 114, 47, 83, 97, 121, 72, 101, 108, 108, 111]
  {}

  /** and "/math.Calculator/Add" for a method in a package.  */
  lemma KnownNameInPackage()
    ensures FullName(Method([109, 97, 116, 104], [67, 97, 108, 99, 117, 108, 97, 116, 111, 114], [65, 100, 100])) ==
      [47, 109, 97, 116, 104, 46, 67, 97, 108, 99, 117, 108, 97, 116, 111, 114, 47, 65, 100, 100]
  {}

  lemma FullNamesAgree(m: Method)
    ensures CppFullName(m) == FullName(m)
  {
    if m.pkg != [] {
      assert [SLASH] + (m.pkg + [DOT] + m.service) == [SLASH] + m.pkg + [DOT] + m.service;
    }
  }

  // The part after the last occurrence of c (the whole string if there is none).
  function AfterLast(s: Name, c: bv8): Name {
    if c !in s then s else AfterLast(s[1..], c)
  }

  lemma {:induction false} AfterLastSplit(a: Name, c: bv8, b: Name)
    requires c !in b
    ensures AfterLast(a + [c] + b, c) == b
  {
    var s := a + [c] + b;
    assert s[|a|] == c;
    if a == [] {
      assert s[1..] == b;
    } else {
      assert s[1..] == a[1..] + [c] + b;
      AfterLastSplit(a[1..], c, b);
    }
  }

  lemma SplitAtLast(a1: Name, b1: Name, a2: Name, b2: Name, c: bv8)
    requires a1 + [c] + b1 == a2 + [c] + b2 && c !in b1 && c !in b2
    ensures a1 == a2 && b1 == b2
  {
    AfterLastSplit(a1, c, b1);
    AfterLastSplit(a2, c, b2);
    var s := a1 + [c] + b1;
    assert |s| == |a1| + 1 + |b1| && |s| == |a2| + 1 + |b2|;
    assert a1 == s[..|a1|];
    assert a2 == s[..|a2|];
  }

  lemma NoSeparators(m: Method)
    requires WellNamed(m)
    ensures SLASH !in m.name && DOT !in m.service && SLASH !in ServiceFullName(m.pkg, m.service)
    ensures DOT in ServiceFullName(m.pkg, m.service) <==> m.pkg != []
    ensures NUL !in FullName(m)
  {
    FullNamesAgree(m);
    if m.pkg != [] { assert ServiceFullName(m.pkg, m.service)[|m.pkg|] == DOT; }
  }

  /** Distinct (package, service, method) triples of valid identifiers have distinct full names.  */
  lemma FullNameInjective(m: Method, n: Method)
    requires WellNamed(m) && WellNamed(n) && FullName(m) == FullName(n)
    ensures m == n
  {
    FullNamesAgree(m);
    FullNamesAgree(n);
    NoSeparators(m);
    NoSeparators(n);
    var ms, ns := ServiceFullName(m.pkg, m.service), ServiceFullName(n.pkg, n.service);
    SplitAtLast([SLASH] + ms, m.name, [SLASH] + ns, n.name, SLASH);
    assert ([SLASH] + ms)[1..] == ms && ([SLASH] + ns)[1..] == ns;
    if m.pkg != [] { SplitAtLast(m.pkg, m.service, n.pkg, n.service, DOT); }
  }

  // A method id on the wire: Fnv1a32 of the full name, as the Go side computes it ...
  datatype MethodId = MethodId(word: bv32)

  function IdOf(s: Name): MethodId { MethodId(Fnv(s)) }

  // ... and as the C++ plugin computes it, from full.c_str().
  function CppIdOf(s: Name): MethodId { MethodId(Fnv(UntilNul(s + [NUL]))) }

  /************ The collision pre-scan ************/

  datatype Service = Service(name: Name, methods: seq<Name>)
  datatype File = File(pkg: Name, services: seq<Service>)
  datatype Verdict = Accepted | Collision(a: Name, b: Name)

  function ServiceNames(pkg: Name, svc: Service): seq<Name> {
    seq(|svc.methods|, i requires 0 <= i < |svc.methods| => FullName(Method(pkg, svc.name, svc.methods[i])))
  }

  function FileNames(pkg: Name, services: seq<Service>): seq<Name> {
    if services == [] then []
    else FileNames(pkg, services[..|services| - 1]) + ServiceNames(pkg, services[|services| - 1])
  }

  // The full names in scan order.
  function Names(files: seq<File>): seq<Name> {
    if files == [] then []
    else Names(files[..|files| - 1]) + FileNames(files[|files| - 1].pkg, files[|files| - 1].services)
  }

  // Some method of some file has this full name.
  ghost predicate Declared(files: seq<File>, full: Name) {
    exists f, s, n :: f in files && s in f.services && n in s.methods && full == FullName(Method(f.pkg, s.name, n))
  }

  ghost predicate DeclaredIn(pkg: Name, services: seq<Service>, full: Name) {
    exists s, n :: s in services && n in s.methods && full == FullName(Method(pkg, s.name, n))
  }

  lemma {:induction false} FileNamesExact(pkg: Name, services: seq<Service>, full: Name)
    ensures full in FileNames(pkg, services) <==> DeclaredIn(pkg, services, full)
    decreases |services|
  {
    if services != [] {
      var k := |services| - 1;
      var rest, last := services[..k], services[k];
      FileNamesExact(pkg, rest, full);
      assert services == rest + [last];
      if DeclaredIn(pkg, services, full) {
        var s, n :| s in services && n in s.methods && full == FullName(Method(pkg, s.name, n));
        if s in rest {
          assert DeclaredIn(pkg, rest, full);
        } else {
          var i :| 0 <= i < |last.methods| && last.methods[i] == n;
          assert ServiceNames(pkg, last)[i] == full;
        }
      }
      if full in ServiceNames(pkg, last) {
        var i :| 0 <= i < |last.methods| && full == FullName(Method(pkg, last.name, last.methods[i]));
        assert last in services && last.methods[i] in last.methods;
      }
    }
  }

  /** The names the pre-scan looks at are those of every method of every service of every file, and no others.  */
  lemma {:induction false} NamesExact(files: seq<File>, full: Name)
    ensures full in Names(files) <==> Declared(files, full)
    decreases |files|
  {
    if files != [] {
      var k := |files| - 1;
      var rest, last := files[..k], files[k];
      NamesExact(rest, full);
      FileNamesExact(last.pkg, last.services, full);
      assert files == rest + [last];
      if Declared(files, full) {
        var f, s, n :| f in files && s in f.services && n in s.methods && full == FullName(Method(f.pkg, s.name, n));
        if f in rest { assert Declared(rest, full); } else { assert DeclaredIn(last.pkg, last.services, full); }
      }
      if DeclaredIn(last.pkg, last.services, full) {
        var s, n :| s in last.services && n in s.methods && full == FullName(Method(last.pkg, s.name, n));
        assert last in files;
      }
    }
  }

  ghost predicate CollisionFree(names: seq<Name>, hash: Name -> MethodId) {
    forall a, b :: a in names && b in names && hash(a) == hash(b) ==> a == b
  }

  // `seen` indexes exactly the names scanned so far.
  ghost predicate Indexes(seen: map<MethodId, Name>, names: seq<Name>, hash: Name -> MethodId) {
    && (forall n :: n in names ==> hash(n) in seen && seen[hash(n)] == n)
    && (forall h :: h in seen ==> seen[h] in names && hash(seen[h]) == h)
  }

  // The answer names two distinct colliding names, or says there are none.
  ghost predicate Correct(v: Verdict, names: seq<Name>, hash: Name -> MethodId) {
    match v
    case Accepted => CollisionFree(names, hash)
    case Collision(a, b) => a in names && b in names && a != b && hash(a) == hash(b)
  }

  lemma IndexOneMore(seen: map<MethodId, Name>, names: seq<Name>, full: Name, hash: Name -> MethodId)
    requires Indexes(seen, names, hash)
    ensures hash(full) in seen && seen[hash(full)] == full ==> Indexes(seen, names + [full], hash)
    ensures hash(full) !in seen ==> Indexes(seen[hash(full) := full], names + [full], hash)
  {
    var h, names' := hash(full), names + [full];
    if h !in seen {
      var seen' := seen[h := full];
      forall n | n in names' ensures hash(n) in seen' && seen'[hash(n)] == n {
        if n in names { assert hash(n) in seen; }
      }
      forall k | k in seen' ensures seen'[k] in names' && hash(seen'[k]) == k {
        if k != h { assert seen[k] in names; } else { assert names'[|names|] == full; }
      }
    }
  }

  // Every method of the service, and of the file, is in the index.
  ghost predicate HoldsService(seen: map<MethodId, Name>, pkg: Name, svc: Service, hash: Name -> MethodId) {
    forall n :: n in svc.methods ==>
      var full := FullName(Method(pkg, svc.name, n)); hash(full) in seen && seen[hash(full)] == full
  }

  ghost predicate HoldsFile(seen: map<MethodId, Name>, f: File, hash: Name -> MethodId) {
    forall full :: DeclaredIn(f.pkg, f.services, full) ==> hash(full) in seen && seen[hash(full)] == full
  }

  // The first i of a service's names are in the index, with those before them.
  ghost predicate Scanned(seen: map<MethodId, Name>, before: seq<Name>, all: seq<Name>, i: nat,
                          hash: Name -> MethodId)
  {
    i <= |all| && Indexes(seen, before + all[..i], hash)
  }

  // The next name is new, or there already, or collides with the one there.
  lemma ScanOne(seen: map<MethodId, Name>, before: seq<Name>, all: seq<Name>, i: nat, hash: Name -> MethodId,
                full: Name)
    requires i < |all| && all[i] == full && Scanned(seen, before, all, i, hash)
    ensures hash(full) !in seen ==> Scanned(seen[hash(full) := full], before, all, i + 1, hash)
    ensures hash(full) in seen && seen[hash(full)] == full ==> Scanned(seen, before, all, i + 1, hash)
    ensures hash(full) in seen && seen[hash(full)] != full ==>
      Correct(Collision(seen[hash(full)], full), before + all, hash)
  {
    assert before + all[..i + 1] == (before + all[..i]) + [full];
    IndexOneMore(seen, before + all[..i], full, hash);
    assert full in before + all;
    if hash(full) in seen { assert seen[hash(full)] in before + all[..i]; }
  }

  method ScanService(pkg: Name, svc: Service, hash: Name -> MethodId, seen: map<MethodId, Name>,
                     ghost before: seq<Name>)
    returns (v: Verdict, seen': map<MethodId, Name>)
    requires Indexes(seen, before, hash)
    ensures v.Accepted? ==> Indexes(seen', before + ServiceNames(pkg, svc), hash)
    ensures v.Accepted? ==> HoldsService(seen', pkg, svc, hash)
    ensures v.Collision? ==> Correct(v, before + ServiceNames(pkg, svc), hash)
  {
    v, seen' := ScanMethods(pkg, svc, hash, seen, before, ServiceNames(pkg, svc));
    if v.Accepted? { IndexesMethods(pkg, svc, hash, seen', before); }
  }

  method ScanMethods(pkg: Name, svc: Service, hash: Name -> MethodId, seen: map<MethodId, Name>,
                     ghost before: seq<Name>, ghost all: seq<Name>)
    returns (v: Verdict, seen': map<MethodId, Name>)
    requires Indexes(seen, before, hash) && all == ServiceNames(pkg, svc)
    ensures v.Accepted? ==> Indexes(seen', before + all, hash)
    ensures v.Collision? ==> Correct(v, before + all, hash)
  {
    seen' := seen;
    var i := 0;
    assert before + all[..0] == before;
    while i < |svc.methods|
      invariant 0 <= i <= |svc.methods| && Scanned(seen', before, all, i, hash)
    {
      var full := FullName(Method(pkg, svc.name, svc.methods[i]));
      var h := hash(full);
      ScanOne(seen', before, all, i, hash, full);
      if h in seen' {
        if seen'[h] != full {
          return Collision(seen'[h], full), seen';
        }
      } else {
        seen' := seen'[h := full];
      }
      i := i + 1;
    }
    assert all[..i] == all;
    v := Accepted;
  }

  lemma IndexesMethods(pkg: Name, svc: Service, hash: Name -> MethodId, seen: map<MethodId, Name>, before: seq<Name>)
    requires Indexes(seen, before + ServiceNames(pkg, svc), hash)
    ensures HoldsService(seen, pkg, svc, hash)
  {
    forall n | n in svc.methods
      ensures var full := FullName(Method(pkg, svc.name, n)); hash(full) in seen && seen[hash(full)] == full
    {
      var k :| 0 <= k < |svc.methods| && svc.methods[k] == n;
      assert ServiceNames(pkg, svc)[k] in before + ServiceNames(pkg, svc);
    }
  }

  method ScanFile(f: File, hash: Name -> MethodId, seen: map<MethodId, Name>, ghost before: seq<Name>)
    returns (v: Verdict, seen': map<MethodId, Name>)
    requires Indexes(seen, before, hash)
    ensures v.Accepted? ==> Indexes(seen', before + FileNames(f.pkg, f.services), hash)
    ensures v.Accepted? ==> HoldsFile(seen', f, hash)
    ensures v.Collision? ==> Correct(v, before + FileNames(f.pkg, f.services), hash)
  {
    seen' := seen;
    v := Accepted;
    var i := 0;
    assert before + FileNames(f.pkg, f.services[..0]) == before;
    while i < |f.services|
      invariant 0 <= i <= |f.services| && v.Accepted?
      invariant Indexes(seen', before + FileNames(f.pkg, f.services[..i]), hash)
    {
      ghost var sofar := FileNames(f.pkg, f.services[..i]);
      v, seen' := ScanService(f.pkg, f.services[i], hash, seen', before + sofar);
      assert f.services[..i + 1][..i] == f.services[..i];
      assert before + sofar + ServiceNames(f.pkg, f.services[i]) == before + FileNames(f.pkg, f.services[..i + 1]);
      if v.Collision? {
        FileNamesPrefix(f.pkg, f.services, i + 1);
        return;
      }
      i := i + 1;
    }
    assert f.services[..i] == f.services;
    IndexesDeclared(f, hash, seen', before);
  }

  lemma IndexesDeclared(f: File, hash: Name -> MethodId, seen: map<MethodId, Name>, before: seq<Name>)
    requires Indexes(seen, before + FileNames(f.pkg, f.services), hash)
    ensures HoldsFile(seen, f, hash)
  {
    forall full | DeclaredIn(f.pkg, f.services, full) ensures hash(full) in seen && seen[hash(full)] == full {
      FileNamesExact(f.pkg, f.services, full);
      assert full in before + FileNames(f.pkg, f.services);
    }
  }

  lemma {:induction false} FileNamesPrefix(pkg: Name, services: seq<Service>, i: nat)
    requires i <= |services|
    ensures FileNames(pkg, services[..i]) <= FileNames(pkg, services)
  {
    if i < |services| {
      assert services[..|services| - 1][..i] == services[..i];
      FileNamesPrefix(pkg, services[..|services| - 1], i);
    } else {
      assert services[..i] == services;
    }
  }

  lemma {:induction false} NamesPrefix(files: seq<File>, i: nat)
    requires i <= |files|
    ensures Names(files[..i]) <= Names(files)
  {
    if i < |files| {
      assert files[..|files| - 1][..i] == files[..i];
      NamesPrefix(files[..|files| - 1], i);
    } else {
      assert files[..i] == files;
    }
  }

  /** checkHashCollisions: it accepts exactly the requests in which no two methods with distinct full names, of any
      services of any files, share a hash, and a rejection names such a pair.  */
  method PreScan(files: seq<File>, hash: Name -> MethodId) returns (v: Verdict)
    ensures v.Accepted? <==> forall a, b :: Declared(files, a) && Declared(files, b) && hash(a) == hash(b) ==> a == b
    ensures v.Collision? ==> Declared(files, v.a) && Declared(files, v.b) && v.a != v.b && hash(v.a) == hash(v.b)
    ensures v.Accepted? <==> CollisionFree(Names(files), hash)
  {
    v := Scan(files, hash);
    forall full ensures full in Names(files) <==> Declared(files, full) { NamesExact(files, full); }
  }

  // The scan of the files in their order.
  method Scan(files: seq<File>, hash: Name -> MethodId) returns (v: Verdict)
    ensures Correct(v, Names(files), hash)
    ensures v.Accepted? <==> CollisionFree(Names(files), hash)
  {
    var seen: map<MethodId, Name> := map[];
    v := Accepted;
    var i := 0;
    while i < |files|
      invariant 0 <= i <= |files| && v.Accepted?
      invariant Indexes(seen, Names(files[..i]), hash)
    {
      ghost var sofar := Names(files[..i]);
      v, seen := ScanFile(files[i], hash, seen, sofar);
      assert files[..i + 1][..i] == files[..i];
      assert Names(files[..i + 1]) == sofar + FileNames(files[i].pkg, files[i].services);
      if v.Collision? {
        NamesPrefix(files, i + 1);
        return;
      }
      i := i + 1;
    }
    assert files[..i] == files;
  }

  predicate WellNamedFiles(files: seq<File>) {
    forall f, s, n {:trigger n in s.methods, f in files} | f in files && s in f.services && n in s.methods ::
      WellNamed(Method(f.pkg, s.name, n))
  }


  /** On requests with valid identifiers the Go and the C++ pre-scan accept the same requests,
      although the C++ one hashes C strings.  */
  lemma PreScansAgree(files: seq<File>)
    requires WellNamedFiles(files)
    ensures CollisionFree(Names(files), IdOf) <==> CollisionFree(Names(files), CppIdOf)
  {
    forall full | full in Names(files) ensures CppIdOf(full) == IdOf(full) {
      NamesExact(files, full);
      var f, s, n :| f in files && s in f.services && n in s.methods && full == FullName(Method(f.pkg, s.name, n));
      NoSeparators(Method(f.pkg, s.name, n));
      CppHashesWholeNameIffNulFree(full);
    }
  }

  /************ The handler table ************/

  type Handler = nat   // the identity of a registered handler

  datatype Registration = Registration(name: Name, handler: Handler)
  datatype Lookup = Missing | Found(handler: Handler)

  // Server.RegisterMethod for each registration in turn: a later one replaces an earlier one.
  function ById(regs: seq<Registration>): map<MethodId, Handler> {
    if regs == [] then map[]
    else var r := regs[|regs| - 1]; ById(regs[..|regs| - 1])[IdOf(r.name) := r.handler]
  }

  // The table a server keyed by full names would hold.
  function ByName(regs: seq<Registration>): map<Name, Handler> {
    if regs == [] then map[]
    else var r := regs[|regs| - 1]; ByName(regs[..|regs| - 1])[r.name := r.handler]
  }

  function FindId(regs: seq<Registration>, id: MethodId): Lookup {
    if id in ById(regs) then Found(ById(regs)[id]) else Missing
  }

  function FindName(regs: seq<Registration>, name: Name): Lookup {
    if name in ByName(regs) then Found(ByName(regs)[name]) else Missing
  }

  ghost predicate Over(regs: seq<Registration>, names: seq<Name>) {
    forall i :: 0 <= i < |regs| ==> regs[i].name in names
  }

  lemma SameHashSameName(names: seq<Name>, a: Name, b: Name)
    requires CollisionFree(names, IdOf) && a in names && b in names && IdOf(a) == IdOf(b)
    ensures a == b
  {
    var hash: Name -> MethodId := IdOf;
    assert hash(a) == hash(b);
  }

  lemma {:induction false} IdFindsName(regs: seq<Registration>, names: seq<Name>, n: Name)
    requires CollisionFree(names, IdOf) && Over(regs, names) && n in names
    ensures FindId(regs, IdOf(n)) == FindName(regs, n)
  {
    if regs != [] {
      var last := regs[|regs| - 1].name;
      if IdOf(last) == IdOf(n) { SameHashSameName(names, last, n); }
      IdFindsName(regs[..|regs| - 1], names, n);
    }
  }

  /** Routing by hash is routing by name, for every registration order and every name of the set,
      registered or not, if and only if the pre-scan accepts the set.  */
  lemma HashTableAgreesIffCollisionFree(names: seq<Name>)
    ensures CollisionFree(names, IdOf) <==>
      forall regs, n :: Over(regs, names) && n in names ==> FindId(regs, IdOf(n)) == FindName(regs, n)
  {
    if CollisionFree(names, IdOf) {
      forall regs, n | Over(regs, names) && n in names ensures FindId(regs, IdOf(n)) == FindName(regs, n) {
        IdFindsName(regs, names, n);
      }
    } else {
      var hash: Name -> MethodId := IdOf;
      var a, b :| a in names && b in names && hash(a) == hash(b) && a != b;
      var regs := [Registration(a, 0)];
      assert regs[..|regs| - 1] == [];
      assert ByName([]) == map[] && ById([]) == map[];
      assert Over(regs, names) && FindId(regs, IdOf(b)) == Found(0) && FindName(regs, b) == Missing;
    }
  }

  lemma {:induction false} FoundIsRegistered(regs: seq<Registration>, n: Name, h: Handler)
    requires forall i, j :: 0 <= i < j < |regs| ==> regs[i].name != regs[j].name
    ensures FindName(regs, n) == Found(h) <==> Registration(n, h) in regs
  {
    if regs != [] {
      var k := |regs| - 1;
      FoundIsRegistered(regs[..k], n, h);
      assert regs == regs[..k] + [regs[k]];
    }
  }

  /** The order in which distinct methods are registered does not matter: any two orders answer
      every lookup alike.  */
  lemma RegistrationOrderIrrelevant(regs: seq<Registration>, regs': seq<Registration>, names: seq<Name>, n: Name)
    requires CollisionFree(names, IdOf) && Over(regs, names) && Over(regs', names) && n in names
    requires forall i, j :: 0 <= i < j < |regs| ==> regs[i].name != regs[j].name
    requires forall i, j :: 0 <= i < j < |regs'| ==> regs'[i].name != regs'[j].name
    requires forall r :: r in regs <==> r in regs'
    ensures FindId(regs, IdOf(n)) == FindId(regs', IdOf(n))
  {
    IdFindsName(regs, names, n);
    IdFindsName(regs', names, n);
    forall h ensures FindName(regs, n) == Found(h) <==> FindName(regs', n) == Found(h) {
      FoundIsRegistered(regs, n, h);
      FoundIsRegistered(regs', n, h);
    }
  }

  // The server's table as an object.
  class HandlerTable {
    var handlers: map<MethodId, Handler>
    ghost var registered: seq<Registration>

    ghost predicate Valid()
      reads this
    {
      handlers == ById(registered)
    }

    constructor ()
      ensures Valid() && registered == []
    {
      handlers, registered := map[], [];
    }

    // RegisterMethod(MethodID(...), handler)
    method RegisterMethod(m: Method, handler: Handler)
      requires Valid()
      modifies this
      ensures Valid() && registered == old(registered) + [Registration(FullName(m), handler)]
    {
      var word := Fnv1a32(FullName(m));
      handlers := handlers[MethodId(word) := handler];
      registered := registered + [Registration(FullName(m), handler)];
      assert registered[..|registered| - 1] == old(registered);
    }

    // The lookup of serveRequest: Missing is answered with Unimplemented.
    method Route(id: MethodId) returns (r: Lookup)
      requires Valid()
      ensures r == FindId(registered, id)
      ensures forall names, n | CollisionFree(names, IdOf) && Over(registered, names) && n in names ::
        id == IdOf(n) ==> r == FindName(registered, n)
    {
      r := if id in handlers then Found(handlers[id]) else Missing;
      forall names, n | CollisionFree(names, IdOf) && Over(registered, names) && n in names && id == IdOf(n)
        ensures r == FindName(registered, n)
      {
        IdFindsName(registered, names, n);
      }
    }
  }
}
