/** The texture bookkeeping of `TexturedVAOs` (mgllib/model/vao.py): a
    bitmask telling the shader which texture categories are bound, the
    bound textures by category, and the uniforms `render` adds for them.
    The GPU objects themselves (programs, vertex arrays, textures) are not
    part of this model: a texture is a value of the type parameter
    `Texture`. Python's integers are unbounded, so the mask is a `nat` and
    `|` is spelled out bit by bit. */
module Vao {
  import opened Dicts

  /** The categories a shader may expect, in bit order. */
  const TEXTURE_CATEGORIES: seq<string> := ["texture", "normal", "metallic"]

  /** `2 ** n`. */
  function Pow2(n: nat): (p: nat)
    ensures p >= 1
  {
    if n == 0 then 1 else 2 * Pow2(n - 1)
  }

  /** Bit k of x. */
  predicate Bit(x: nat, k: nat) {
    if k == 0 then x % 2 == 1 else Bit(x / 2, k - 1)
  }

  /** Python's `a | b` on non-negative integers. */
  function Or(a: nat, b: nat): nat
    decreases a + b
  {
    if a == 0 then b
    else if b == 0 then a
    else 2 * Or(a / 2, b / 2) + (if a % 2 == 1 || b % 2 == 1 then 1 else 0)
  }

  lemma {:induction false} ZeroBit(k: nat)
    ensures !Bit(0, k)
  {
    if k > 0 {
      ZeroBit(k - 1);
    }
  }

  /** A bit of `a | b` is set exactly when it is set in `a` or in `b`. */
  lemma {:induction false} OrBit(a: nat, b: nat, k: nat)
    ensures Bit(Or(a, b), k) <==> Bit(a, k) || Bit(b, k)
    decreases a + b
  {
    if a == 0 {
      ZeroBit(k);
    } else if b == 0 {
      ZeroBit(k);
    } else {
      var r := Or(a / 2, b / 2);
      var low := if a % 2 == 1 || b % 2 == 1 then 1 else 0;
      assert Or(a, b) == 2 * r + low;
      assert (2 * r + low) % 2 == low && (2 * r + low) / 2 == r;
      if k > 0 {
        OrBit(a / 2, b / 2, k - 1);
      }
    }
  }

  /** `2 ** i` has bit i and no other. */
  lemma {:induction false} PowBit(i: nat, k: nat)
    ensures Bit(Pow2(i), k) <==> k == i
  {
    if i == 0 {
      if k > 0 {
        ZeroBit(k - 1);
      }
    } else if k > 0 {
      PowBit(i - 1, k - 1);
    }
  }

  /** Or-ing in a bit that is already set changes nothing. */
  lemma {:induction false} OrAbsorbs(a: nat, i: nat)
    requires Bit(a, i)
    ensures Or(a, Pow2(i)) == a
  {
    if a == 0 {
      ZeroBit(i);
    } else if i == 0 {
      assert Or(a, 1) == 2 * Or(a / 2, 0) + 1;
    } else {
      OrAbsorbs(a / 2, i - 1);
      assert Pow2(i) / 2 == Pow2(i - 1) && Pow2(i) % 2 == 0;
    }
  }

  /** The position of x in s, as `list.index` finds it: the first one. */
  function IndexOf(s: seq<string>, x: string): (i: nat)
    requires x in s
    ensures i < |s| && s[i] == x
    ensures forall j :: 0 <= j < i ==> s[j] != x
  {
    if s[0] == x then 0 else 1 + IndexOf(s[1..], x)
  }

  /** The categories are distinct, so a category's index names it. */
  lemma CategoryAt(c: string, k: nat)
    requires c in TEXTURE_CATEGORIES && k < |TEXTURE_CATEGORIES|
    ensures TEXTURE_CATEGORIES[k] == c <==> k == IndexOf(TEXTURE_CATEGORIES, c)
  {
  }

  /** The shader uniform a texture category is passed under. */
  function UniformName(category: string): string {
    if category == "texture" then "tex" else category + "_tex"
  }

  /** Two categories never share a uniform, so no texture `render` adds
      hides another. */
  lemma UniformNameInjective(c1: string, c2: string)
    ensures UniformName(c1) == UniformName(c2) <==> c1 == c2
  {
    if UniformName(c1) == UniformName(c2) && c1 != "texture" && c2 != "texture" {
      assert c1 == (c1 + "_tex")[..|c1|];
      assert c2 == (c2 + "_tex")[..|c2|];
    }
  }

  /** No category's uniform is the mask's uniform. */
  lemma UniformNameNotFlags(c: string)
    ensures UniformName(c) != "texture_flags"
  {
    if c != "texture" {
      var n := c + "_tex";
      assert n[|n| - 1] == 'x';
    }
  }

  /** A value passed to the shader: a texture, the mask, or one of the
      caller's own uniforms. */
  datatype Uniform<Texture, V> = Sampler(texture: Texture) | Flags(bits: nat) | Given(value: V)

  class TexturedVAOs<Texture> {
    const simple: bool
    var textures: Dict<string, Texture>
    var textureFlags: nat

    /** The textures are the known categories, and the mask holds bit 0
        and the bit of each bound category, nothing else. */
    ghost predicate Valid()
      reads this
    {
      && textures.Valid()
      && (forall c :: c in textures.items ==> c in TEXTURE_CATEGORIES)
      && (forall k: nat :: Bit(textureFlags, k) <==>
            k == 0 || (k < |TEXTURE_CATEGORIES| && TEXTURE_CATEGORIES[k] in textures.items))
    }

    /** No textures yet; the mask starts at 1. */
    constructor (simple: bool)
      ensures Valid()
      ensures this.simple == simple && textures == Empty() && textureFlags == 1
    {
      this.simple := simple;
      textures := Empty();
      textureFlags := 1;
      forall k: nat
        ensures Bit(1, k) <==> k == 0
      {
        PowBit(0, k);
      }
    }

    /** `bind_texture(texture, category)`: a known category sets its bit
        and stores the texture, replacing one bound before; an unknown
        category changes nothing. */
    method BindTexture(texture: Texture, category: string)
      requires Valid()
      modifies this
      ensures Valid()
      ensures category in TEXTURE_CATEGORIES ==>
        && textureFlags == Or(old(textureFlags), Pow2(IndexOf(TEXTURE_CATEGORIES, category)))
        && textures == old(textures).Put(category, texture)
      ensures category !in TEXTURE_CATEGORIES ==> textureFlags == old(textureFlags) && textures == old(textures)
    {
      if category in TEXTURE_CATEGORIES {
        var i := IndexOf(TEXTURE_CATEGORIES, category);
        var oldFlags := textureFlags;
        textureFlags := Or(textureFlags, Pow2(i));
        textures := textures.Put(category, texture);
        forall k: nat
          ensures Bit(textureFlags, k) <==>
            k == 0 || (k < |TEXTURE_CATEGORIES| && TEXTURE_CATEGORIES[k] in textures.items)
        {
          OrBit(oldFlags, Pow2(i), k);
          PowBit(i, k);
          if k < |TEXTURE_CATEGORIES| {
            CategoryAt(category, k);
          }
        }
      }
    }

    /** The uniforms `render` passes on: each bound texture under its
        category's name, the mask under `texture_flags` unless the VAOs
        are simple, and the caller's other uniforms as they were. */
    method RenderUniforms<V>(uniforms: Dict<string, Uniform<Texture, V>>) returns (u: Dict<string, Uniform<Texture, V>>)
      requires textures.Valid() && uniforms.Valid()
      ensures u == Rendered(uniforms, textures, textureFlags, simple)
      ensures u.Valid()
      ensures forall c :: c in textures.items ==>
        UniformName(c) in u.items && u.items[UniformName(c)] == Sampler(textures.items[c])
      ensures !simple ==> "texture_flags" in u.items && u.items["texture_flags"] == Flags(textureFlags)
      ensures forall n :: NotSampler(n, textures) && (simple || n != "texture_flags") ==>
        (n in u.items <==> n in uniforms.items) && (n in uniforms.items ==> u.items[n] == uniforms.items[n])
    {
      u := PutSamplers(uniforms, textures);
      if !simple {
        u := u.Put("texture_flags", Flags(textureFlags));
      }
      RenderedValid(uniforms, textures, textureFlags, simple);
      RenderedSamplers(uniforms, textures, textureFlags, simple);
      RenderedKeeps(uniforms, textures, textureFlags, simple);
    }
  }

  /** The uniforms `render` passes on, as a value. */
  function Rendered<Texture, V>(uniforms: Dict<string, Uniform<Texture, V>>, textures: Dict<string, Texture>, flags: nat, simple: bool)
    : Dict<string, Uniform<Texture, V>>
    requires textures.Valid()
  {
    var added := WithSamplers(uniforms, textures.keys, textures);
    if simple then added else added.Put("texture_flags", Flags(flags))
  }

  lemma RenderedValid<Texture, V>(uniforms: Dict<string, Uniform<Texture, V>>, textures: Dict<string, Texture>, flags: nat, simple: bool)
    requires textures.Valid() && uniforms.Valid()
    ensures Rendered(uniforms, textures, flags, simple).Valid()
    ensures !simple ==>
      "texture_flags" in Rendered(uniforms, textures, flags, simple).items
      && Rendered(uniforms, textures, flags, simple).items["texture_flags"] == Flags(flags)
  {
    WithSamplersValid(uniforms, textures.keys, textures);
  }

  /** Each bound texture is passed under its category's uniform. */
  lemma RenderedSamplers<Texture, V>(uniforms: Dict<string, Uniform<Texture, V>>, textures: Dict<string, Texture>, flags: nat, simple: bool)
    requires textures.Valid()
    ensures forall c :: c in textures.items ==>
      UniformName(c) in Rendered(uniforms, textures, flags, simple).items
      && Rendered(uniforms, textures, flags, simple).items[UniformName(c)] == Sampler(textures.items[c])
  {
    forall c | c in textures.items
      ensures UniformName(c) in Rendered(uniforms, textures, flags, simple).items
      ensures Rendered(uniforms, textures, flags, simple).items[UniformName(c)] == Sampler(textures.items[c])
    {
      WithSamplersHas(uniforms, textures.keys, textures, c);
      UniformNameNotFlags(c);
    }
  }

  /** The caller's other uniforms pass through as they were. */
  lemma RenderedKeeps<Texture, V>(uniforms: Dict<string, Uniform<Texture, V>>, textures: Dict<string, Texture>, flags: nat, simple: bool)
    requires textures.Valid()
    ensures forall n :: NotSampler(n, textures) && (simple || n != "texture_flags") ==>
      (n in Rendered(uniforms, textures, flags, simple).items <==> n in uniforms.items)
      && (n in uniforms.items ==> Rendered(uniforms, textures, flags, simple).items[n] == uniforms.items[n])
  {
    forall n | NotSampler(n, textures) && (simple || n != "texture_flags")
      ensures n in Rendered(uniforms, textures, flags, simple).items <==> n in uniforms.items
      ensures n in uniforms.items ==> Rendered(uniforms, textures, flags, simple).items[n] == uniforms.items[n]
    {
      WithSamplersKeeps(uniforms, textures.keys, textures, n);
    }
  }

  /** The loop of `render` over the bound textures. */
  method PutSamplers<Texture, V>(uniforms: Dict<string, Uniform<Texture, V>>, textures: Dict<string, Texture>)
    returns (u: Dict<string, Uniform<Texture, V>>)
    requires textures.Valid()
    ensures u == WithSamplers(uniforms, textures.keys, textures)
  {
    var keys := textures.keys;
    u := uniforms;
    var i := 0;
    while i < |keys|
      invariant 0 <= i <= |keys|
      invariant u == WithSamplers(uniforms, keys[..i], textures)
    {
      var c := keys[i];
      assert keys[..i + 1][..i] == keys[..i] && keys[..i + 1][i] == c;
      u := u.Put(UniformName(c), Sampler(textures.items[c]));
      i := i + 1;
    }
    assert keys[..i] == keys;
  }

  /** `n` is no bound category's uniform. */
  ghost predicate NotSampler<Texture>(n: string, textures: Dict<string, Texture>) {
    forall c :: c in textures.items ==> UniformName(c) != n
  }

  /** `uniforms` after the categories `cs` have been put in, in order,
      each under its uniform name. */
  function WithSamplers<Texture, V>(uniforms: Dict<string, Uniform<Texture, V>>, cs: seq<string>, textures: Dict<string, Texture>)
    : Dict<string, Uniform<Texture, V>>
    requires forall c :: c in cs ==> c in textures.items
  {
    if cs == [] then uniforms
    else
      var c := cs[|cs| - 1];
      WithSamplers(uniforms, cs[..|cs| - 1], textures).Put(UniformName(c), Sampler(textures.items[c]))
  }

  lemma {:induction false} WithSamplersValid<Texture, V>(uniforms: Dict<string, Uniform<Texture, V>>, cs: seq<string>, textures: Dict<string, Texture>)
    requires forall c :: c in cs ==> c in textures.items
    requires uniforms.Valid()
    ensures WithSamplers(uniforms, cs, textures).Valid()
  {
    if cs != [] {
      WithSamplersValid(uniforms, cs[..|cs| - 1], textures);
    }
  }

  /** Every category put in can be found under its uniform name: since
      names are distinct, no later category overwrites it. */
  lemma {:induction false} WithSamplersHas<Texture, V>(uniforms: Dict<string, Uniform<Texture, V>>, cs: seq<string>, textures: Dict<string, Texture>, c: string)
    requires forall c :: c in cs ==> c in textures.items
    requires c in cs
    ensures UniformName(c) in WithSamplers(uniforms, cs, textures).items
    ensures WithSamplers(uniforms, cs, textures).items[UniformName(c)] == Sampler(textures.items[c])
  {
    var last := cs[|cs| - 1];
    UniformNameInjective(c, last);
    if c != last {
      assert c in cs[..|cs| - 1];
      WithSamplersHas(uniforms, cs[..|cs| - 1], textures, c);
    }
  }

  /** A name no category put in maps to is left as it was. */
  lemma {:induction false} WithSamplersKeeps<Texture, V>(uniforms: Dict<string, Uniform<Texture, V>>, cs: seq<string>, textures: Dict<string, Texture>, n: string)
    requires forall c :: c in cs ==> c in textures.items
    requires forall c :: c in cs ==> UniformName(c) != n
    ensures n in WithSamplers(uniforms, cs, textures).items <==> n in uniforms.items
    ensures n in uniforms.items ==> WithSamplers(uniforms, cs, textures).items[n] == uniforms.items[n]
  {
    if cs != [] {
      WithSamplersKeeps(uniforms, cs[..|cs| - 1], textures, n);
    }
  }

  /** Binding never clears a bit of the mask, and sets the bound
      category's. */
  lemma BindKeepsBits(flags: nat, category: string, k: nat)
    requires category in TEXTURE_CATEGORIES
    ensures Bit(Or(flags, Pow2(IndexOf(TEXTURE_CATEGORIES, category))), k)
      <==> Bit(flags, k) || k == IndexOf(TEXTURE_CATEGORIES, category)
  {
    OrBit(flags, Pow2(IndexOf(TEXTURE_CATEGORIES, category)), k);
    PowBit(IndexOf(TEXTURE_CATEGORIES, category), k);
  }

  /** `texture` has bit 0, which the mask holds from the start: binding it
      leaves the mask as it was. */
  lemma BindTextureKeepsFlags<Texture>(v: TexturedVAOs<Texture>)
    requires v.Valid()
    ensures Or(v.textureFlags, Pow2(IndexOf(TEXTURE_CATEGORIES, "texture"))) == v.textureFlags
  {
    assert Bit(v.textureFlags, 0);
    OrAbsorbs(v.textureFlags, 0);
  }
}
