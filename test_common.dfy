// Test metadata shared by the demo and test programs: the API enum, the
// metadata record each registered test carries, its ordering, and what the
// reporting macros do to the process.
module TestCommon {
  import Sorting

  datatype TestAPI = D3D11 | Vulkan | OpenGL

  /** The underlying value of the `enum class`, in declaration order. */
  function ApiValue(a: TestAPI): (r: nat)
    ensures r < 3
    ensures r == 0 <==> a.D3D11?
    ensures r == 2 <==> a.OpenGL?
  {
    match a
    case D3D11 => 0
    case Vulkan => 1
    case OpenGL => 2
  }

  datatype ShaderLang = Glsl | Hlsl
  datatype ShaderStage = Vert | Frag | TessControl | TessEval | Geom | Comp

  /**
   * One registered test. `test` is the address of the test object, which is
   * the last key of the ordering.
   */
  datatype TestMetadata = TestMetadata(api: TestAPI, name: string, description: string, test: nat)

  /** The short display name of an API; distinct APIs get distinct names. */
  function APIName(a: TestAPI): (r: string)
    ensures r == "D3D11" || r == "VK" || r == "GL"
    ensures r != "???"
  {
    match a
    case D3D11 => "D3D11"
    case Vulkan => "VK"
    case OpenGL => "GL"
  }

  /** Distinct APIs are listed under distinct names. */
  lemma APINameInjective(a: TestAPI, b: TestAPI)
    requires a != b
    ensures APIName(a) != APIName(b)
  {
    assert APIName(a)[0] != APIName(b)[0];
  }

  /**
   * The sign of C `strcmp` on NUL-free strings: characters are compared as
   * unsigned codes, and a proper prefix compares below the longer string.
   */
  function StrCmp(a: string, b: string): (r: int)
    ensures -1 <= r <= 1
  {
    if |a| == 0 && |b| == 0 then 0
    else if |a| == 0 then -1
    else if |b| == 0 then 1
    else if a[0] < b[0] then -1
    else if b[0] < a[0] then 1
    else StrCmp(a[1..], b[1..])
  }

  /** `TestMetadata::operator<`: by API, then by name, then by test address. */
  function Less(x: TestMetadata, y: TestMetadata): (r: bool)
    ensures x.api != y.api ==> (r <==> ApiValue(x.api) < ApiValue(y.api))
    ensures x.api == y.api && x.name == y.name ==> (r <==> x.test < y.test)
    ensures r ==> ApiValue(x.api) <= ApiValue(y.api)
  {
    if x.api != y.api then ApiValue(x.api) < ApiValue(y.api)
    else
      var ret := StrCmp(x.name, y.name);
      StrCmpZeroIffEqual(x.name, y.name);
      if ret != 0 then ret < 0 else x.test < y.test
  }

  lemma {:induction false} StrCmpZeroIffEqual(a: string, b: string)
    ensures StrCmp(a, b) == 0 <==> a == b
  {
    if |a| > 0 && |b| > 0 && a[0] == b[0] {
      StrCmpZeroIffEqual(a[1..], b[1..]);
      assert a == [a[0]] + a[1..] && b == [b[0]] + b[1..];
    }
  }

  lemma {:induction false} StrCmpAntisymmetric(a: string, b: string)
    ensures StrCmp(a, b) == -StrCmp(b, a)
  {
    if |a| > 0 && |b| > 0 && a[0] == b[0] {
      StrCmpAntisymmetric(a[1..], b[1..]);
    }
  }

  lemma {:induction false} StrCmpTransitive(a: string, b: string, c: string)
    requires StrCmp(a, b) < 0 && StrCmp(b, c) < 0
    ensures StrCmp(a, c) < 0
  {
    if |a| > 0 && |b| > 0 && |c| > 0 && a[0] == b[0] && b[0] == c[0] {
      StrCmpTransitive(a[1..], b[1..], c[1..]);
    }
  }

  /** Entries that differ in API, name or test object are strictly ordered one way. */
  lemma LessTotal(x: TestMetadata, y: TestMetadata)
    requires x.api != y.api || x.name != y.name || x.test != y.test
    ensures Less(x, y) || Less(y, x)
    ensures !(Less(x, y) && Less(y, x))
  {
    StrCmpZeroIffEqual(x.name, y.name);
    StrCmpAntisymmetric(x.name, y.name);
  }

  /** `operator<` is irreflexive and transitive, so `std::sort` may use it. */
  lemma LessIsStrictOrder()
    ensures Sorting.StrictOrder(Less)
  {
    forall a ensures !Less(a, a) {
      StrCmpZeroIffEqual(a.name, a.name);
    }
    forall a, b, c | Less(a, b) && Less(b, c) ensures Less(a, c) {
      LessTransitive(a, b, c);
    }
  }

  lemma LessTransitive(a: TestMetadata, b: TestMetadata, c: TestMetadata)
    requires Less(a, b) && Less(b, c)
    ensures Less(a, c)
  {
    if a.api == b.api && b.api == c.api {
      StrCmpZeroIffEqual(a.name, b.name);
      StrCmpZeroIffEqual(b.name, c.name);
      StrCmpZeroIffEqual(a.name, c.name);
      if StrCmp(a.name, b.name) < 0 && StrCmp(b.name, c.name) < 0 {
        StrCmpTransitive(a.name, b.name, c.name);
      } else if StrCmp(a.name, b.name) < 0 {
        assert b.name == c.name;
      } else if StrCmp(b.name, c.name) < 0 {
        assert a.name == b.name;
      }
    }
  }

  /**
   * A test type as `REGISTER_TEST` sees it: its stringified type name and its
   * static `API` and `Description` members.
   */
  datatype TestType = TestType(typeName: string, api: TestAPI, description: string)

  /** The metadata `REGISTER_TEST(T)` passes to `RegisterTest` for the instance at `addr`. */
  function Registration(t: TestType, addr: nat): (m: TestMetadata)
    ensures m.name == t.typeName && m.api == t.api && m.description == t.description
    ensures m.test == addr
  {
    TestMetadata(t.api, t.typeName, t.description, addr)
  }

  /** Two registered instances (distinct addresses) are never tied under `operator<`. */
  lemma RegistrationsStrictlyOrdered(t: TestType, a: nat, u: TestType, b: nat)
    requires a != b
    ensures Less(Registration(t, a), Registration(u, b)) != Less(Registration(u, b), Registration(t, a))
  {
    LessTotal(Registration(t, a), Registration(u, b));
  }

  /** The reporting macros. `Assert` carries the value of its condition. */
  datatype Macro = Assert(cond: bool) | Log | Warn | Error | Fatal | Unimplemented

  /** What a macro does after printing: go on (maybe after a debugger break) or end the process. */
  datatype Effect = Continue(prints: bool, breaks: bool) | Exit(code: int)

  function MacroEffect(m: Macro): (e: Effect)
    ensures e.Exit? <==> (m.Fatal? || m.Unimplemented?)
    ensures e.Exit? ==> e.code == 0
    ensures e.Continue? ==> (e.breaks <==> (m.Error? || (m.Assert? && !m.cond)))
    ensures e.Continue? ==> (e.prints <==> !(m.Assert? && m.cond))
  {
    match m
    case Assert(c) => Continue(!c, !c)
    case Log => Continue(true, false)
    case Warn => Continue(true, false)
    case Error => Continue(true, true)
    case Fatal => Exit(0)
    case Unimplemented => Exit(0)
  }
}
