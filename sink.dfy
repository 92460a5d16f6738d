/** The collaborators the scene manager talks to, seen from outside: the shader
    manager (named uniform writes), the primitive mesh library (load and draw per
    shape) and the texture-unit bindings of BindGLTextures. Each such call is one
    Event in an ordered log; the functions below give that log its meaning: the
    last value written to each uniform, the draw calls it issues together with
    the values last written before each, and which texture is bound on which
    unit. A written value is recorded as sent, whether or not GL accepts it. */
module Sink {

  /** A triple as written in the source's literals. Values are carried, never
      computed with, so single-precision rounding plays no part. */
  datatype Vec3 = Vec3(x: real, y: real, z: real)

  /** An RGBA colour as written in the source's literals. */
  datatype Vec4 = Vec4(r: real, g: real, b: real, a: real)

  /** The arguments of one SetTransformations call; the 4x4 model matrix glm
      builds from them is not modelled, it is identified with its arguments. */
  datatype Transform = Transform(scale: Vec3, xDegrees: real, yDegrees: real, zDegrees: real, position: Vec3)

  /** The shapes the mesh library can load and draw. */
  datatype Shape = Plane | Box | Torus | TaperedCylinder | Prism

  /** A value written to a shader uniform, by the setter that writes it. */
  datatype Value =
    | Int(i: int)                      // setIntValue
    | Float(f: real)                   // setFloatValue
    | Vector3(v3: Vec3)                // setVec3Value
    | Vector4(v4: Vec4)                // setVec4Value
    | Sampler2D(unit: int)             // setSampler2DValue
    | ModelMatrix(transform: Transform) // setMat4Value of the model matrix

  /** One call made on a collaborator. */
  datatype Event =
    | SetUniform(name: string, value: Value)  // shader manager
    | BindTexture(unit: int, id: int)         // glActiveTexture(GL_TEXTURE0 + unit); glBindTexture(id)
    | LoadMesh(shape: Shape)                  // mesh library, once per shape
    | DrawMesh(shape: Shape)                  // mesh library, once per draw

  // Names of the uniforms the scene manager writes.
  const ModelName := "model"
  const ColorValueName := "objectColor"
  const TextureValueName := "objectTexture"
  const UseTextureName := "bUseTexture"
  const AmbientColorName := "material.ambientColor"
  const AmbientStrengthName := "material.ambientStrength"
  const DiffuseColorName := "material.diffuseColor"
  const SpecularColorName := "material.specularColor"
  const ShininessName := "material.shininess"

  /** The shader program's uniform values, by name. */
  type Uniforms = map<string, Value>

  function Apply(u: Uniforms, e: Event): Uniforms
  {
    if e.SetUniform? then u[e.name := e.value] else u
  }

  /** The uniform values after replaying the log t on top of u. */
  function After(u: Uniforms, t: seq<Event>): Uniforms
    decreases |t|
  {
    if t == [] then u else After(Apply(u, t[0]), t[1..])
  }

  /** One draw call together with the uniform values it is drawn with. */
  datatype DrawCall = DrawCall(shape: Shape, uniforms: Uniforms)

  /** The draw calls the log t issues, in order, starting from uniforms u. */
  function Draws(u: Uniforms, t: seq<Event>): seq<DrawCall>
    decreases |t|
  {
    if t == [] then []
    else (if t[0].DrawMesh? then [DrawCall(t[0].shape, u)] else []) + Draws(Apply(u, t[0]), t[1..])
  }

  /** Draw call c is drawn with uniform `name` holding v. */
  predicate Sees(c: DrawCall, name: string, v: Value)
  {
    name in c.uniforms && c.uniforms[name] == v
  }

  predicate NoDraws(t: seq<Event>)
  {
    forall i :: 0 <= i < |t| ==> !t[i].DrawMesh?
  }

  /** Replaying a log in two pieces is replaying it whole. */
  lemma {:induction false} AfterAppend(u: Uniforms, a: seq<Event>, b: seq<Event>)
    ensures After(u, a + b) == After(After(u, a), b)
    decreases |a|
  {
    if a == [] {
      assert a + b == b;
    } else {
      assert (a + b)[1..] == a[1..] + b;
      AfterAppend(Apply(u, a[0]), a[1..], b);
    }
  }

  /** The draws of a log made of two pieces are the draws of the first piece,
      then those of the second, drawn with what the first piece left behind. */
  lemma {:induction false} DrawsAppend(u: Uniforms, a: seq<Event>, b: seq<Event>)
    ensures Draws(u, a + b) == Draws(u, a) + Draws(After(u, a), b)
    decreases |a|
  {
    if a == [] {
      assert a + b == b;
    } else {
      var head := if a[0].DrawMesh? then [DrawCall(a[0].shape, u)] else [];
      var u' := Apply(u, a[0]);
      assert (a + b)[0] == a[0] && (a + b)[1..] == a[1..] + b;
      calc {
        Draws(u, a + b);
        head + Draws(u', a[1..] + b);
        { DrawsAppend(u', a[1..], b); }
        head + (Draws(u', a[1..]) + Draws(After(u', a[1..]), b));
        (head + Draws(u', a[1..])) + Draws(After(u', a[1..]), b);
      }
    }
  }

  /** A stretch of uniform writes followed by one draw issues exactly that draw,
      and it sees every write of the stretch. */
  lemma {:induction false} DrawAfterPrelude(u: Uniforms, p: seq<Event>, s: Shape)
    requires NoDraws(p)
    ensures Draws(u, p + [DrawMesh(s)]) == [DrawCall(s, After(u, p))]
    decreases |p|
  {
    if p == [] {
      assert p + [DrawMesh(s)] == [DrawMesh(s)];
      assert Draws(Apply(u, DrawMesh(s)), []) == [];
    } else {
      assert (p + [DrawMesh(s)])[1..] == p[1..] + [DrawMesh(s)];
      DrawAfterPrelude(Apply(u, p[0]), p[1..], s);
    }
  }

  /** The first n of a list of logs, one after the other. */
  function Concat(logs: seq<seq<Event>>, n: nat): seq<Event>
    requires n <= |logs|
  {
    if n == 0 then [] else Concat(logs, n - 1) + logs[n - 1]
  }

  /** A log that issues exactly one draw, as its last call. */
  predicate SingleDraw(t: seq<Event>)
  {
    |t| > 0 && t[|t| - 1].DrawMesh? && NoDraws(t[..|t| - 1])
  }

  lemma SingleDrawDraws(u: Uniforms, t: seq<Event>)
    requires SingleDraw(t)
    ensures |Draws(u, t)| == 1
  {
    var n := |t| - 1;
    assert t == t[..n] + [DrawMesh(t[n].shape)];
    DrawAfterPrelude(u, t[..n], t[n].shape);
  }

  /** The first n of a list of single-draw logs issue exactly n draws. */
  lemma {:induction false} ConcatDrawCount(u: Uniforms, logs: seq<seq<Event>>, n: nat)
    requires n <= |logs|
    requires forall j :: 0 <= j < |logs| ==> SingleDraw(logs[j])
    ensures |Draws(u, Concat(logs, n))| == n
  {
    if n > 0 {
      var a := Concat(logs, n - 1);
      ConcatDrawCount(u, logs, n - 1);
      SingleDrawDraws(After(u, a), logs[n - 1]);
      DrawsAppend(u, a, logs[n - 1]);
    }
  }

  /** Draw k of the first n single-draw logs is the draw of log k, made with
      the uniform values the logs before it left behind. */
  lemma {:induction false} ConcatDrawAt(u: Uniforms, logs: seq<seq<Event>>, n: nat, k: nat)
    requires k < n <= |logs|
    requires forall j :: 0 <= j < |logs| ==> SingleDraw(logs[j])
    ensures var d := Draws(u, Concat(logs, n));
      var e := Draws(After(u, Concat(logs, k)), logs[k]);
      |d| == n && |e| == 1 && d[k] == e[0]
  {
    var a := Concat(logs, n - 1);
    ConcatDrawCount(u, logs, n - 1);
    SingleDrawDraws(After(u, a), logs[n - 1]);
    DrawsAppend(u, a, logs[n - 1]);
    if k < n - 1 {
      ConcatDrawAt(u, logs, n - 1, k);
    }
  }

  /** Eight logs, one after the other. */
  lemma ConcatEight(logs: seq<seq<Event>>)
    requires |logs| == 8
    ensures Concat(logs, 8) ==
      logs[0] + logs[1] + logs[2] + logs[3] + logs[4] + logs[5] + logs[6] + logs[7]
  {
    assert Concat(logs, 0) == [];
    LogOfEight(Concat(logs, 0), logs[0], logs[1], logs[2], logs[3], logs[4], logs[5], logs[6], logs[7],
      Concat(logs, 1), Concat(logs, 2), Concat(logs, 3), Concat(logs, 4),
      Concat(logs, 5), Concat(logs, 6), Concat(logs, 7), Concat(logs, 8));
  }

  /** A log that grew by o0, then o1, …, then o7 grew by their concatenation. */
  lemma LogOfEight(start: seq<Event>, o0: seq<Event>, o1: seq<Event>, o2: seq<Event>, o3: seq<Event>,
                   o4: seq<Event>, o5: seq<Event>, o6: seq<Event>, o7: seq<Event>,
                   c1: seq<Event>, c2: seq<Event>, c3: seq<Event>, c4: seq<Event>,
                   c5: seq<Event>, c6: seq<Event>, c7: seq<Event>, c8: seq<Event>)
    requires c1 == start + o0 && c2 == c1 + o1 && c3 == c2 + o2 && c4 == c3 + o3
    requires c5 == c4 + o4 && c6 == c5 + o5 && c7 == c6 + o6 && c8 == c7 + o7
    ensures c8 == start + (o0 + o1 + o2 + o3 + o4 + o5 + o6 + o7)
  {
  }

  /** Which texture id is bound on which texture unit after the log t. */
  function BoundUnits(t: seq<Event>): map<int, int>
    decreases |t|
  {
    if t == [] then map[]
    else
      var m := BoundUnits(t[..|t| - 1]);
      var e := t[|t| - 1];
      if e.BindTexture? then m[e.unit := e.id] else m
  }

  /** Bindings made later override earlier ones, unit by unit. */
  lemma {:induction false} BoundUnitsAppend(a: seq<Event>, b: seq<Event>)
    ensures BoundUnits(a + b) == BoundUnits(a) + BoundUnits(b)
    decreases |b|
  {
    if b == [] {
      assert a + b == a;
    } else {
      var b' := b[..|b| - 1];
      assert (a + b)[..|a + b| - 1] == a + b';
      assert (a + b)[|a + b| - 1] == b[|b| - 1];
      BoundUnitsAppend(a, b');
    }
  }
}
