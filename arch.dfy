/** The compact architecture string, e.g. "64_b128_c256": one token per '_'-separated piece. */
module Arch {
  import opened Wrappers
  import opened Text

  /** 'c': a 1x1 convolution block; 'b': a bilateral (permutohedral) block. */
  datatype Kind = Conv | Bilateral

  datatype Token = Token(kind: Kind, width: int)

  /** One piece of the architecture string (models.py line 22): a leading 'b' or 'c' names the kind
      and the rest is the width; any other piece is a convolution whose width is the whole piece. */
  function ParseToken(v: string): (r: Result<Token>)
    ensures v == [] ==> r == Err(IndexError)
    ensures r.Ok? ==> v != [] && (r.value.kind == Bilateral <==> v[0] == 'b')
    ensures v != [] && (v[0] == 'b' || v[0] == 'c') ==>
      (r.Ok? <==> ParseInt(v[1..]).Ok?) && (r.Ok? ==> r.value.width == ParseInt(v[1..]).value)
    ensures v != [] && v[0] != 'b' && v[0] != 'c' ==>
      (r.Ok? <==> ParseInt(v).Ok?) && (r.Ok? ==> r == Ok(Token(Conv, ParseInt(v).value)))
  {
    if v == [] then Err(IndexError)
    else if v[0] == 'b' || v[0] == 'c' then
      match ParseInt(v[1..])
      case Ok(w) => Ok(Token(if v[0] == 'b' then Bilateral else Conv, w))
      case Err(e) => Err(e)
    else
      match ParseInt(v)
      case Ok(w) => Ok(Token(Conv, w))
      case Err(e) => Err(e)
  }

  /** The list comprehension over the pieces: the first failing piece raises. */
  function ParseTokens(ps: seq<string>): (r: Result<seq<Token>>)
    ensures r.Ok? <==> forall k :: 0 <= k < |ps| ==> ParseToken(ps[k]).Ok?
    ensures r.Ok? ==> |r.value| == |ps| && forall k :: 0 <= k < |ps| ==> ParseToken(ps[k]) == Ok(r.value[k])
    ensures r.Err? ==> exists k :: 0 <= k < |ps| && ParseToken(ps[k]) == Err(r.error)
                                  && forall j :: 0 <= j < k ==> ParseToken(ps[j]).Ok?
  {
    if ps == [] then Ok([])
    else
      match ParseToken(ps[0])
      case Err(e) => Err(e)
      case Ok(t) =>
        match ParseTokens(ps[1..])
        case Err(e) =>
          assert forall k :: 1 <= k < |ps| ==> ps[k] == ps[1..][k - 1];
          Err(e)
        case Ok(ts) => Ok([t] + ts)
  }

  /** models.py line 22: `arch_str.split('_')` then one token per piece. */
  function ParseArch(arch: string): Result<seq<Token>>
  {
    ParseTokens(Split(arch, '_'))
  }

  /** The number of bilateral tokens (models.py line 23). */
  function CountBilateral(ts: seq<Token>): (n: nat)
    ensures n <= |ts|
  {
    if ts == [] then 0
    else CountBilateral(ts[..|ts| - 1]) + (if ts[|ts| - 1].kind == Bilateral then 1 else 0)
  }

  /** The inverse of parsing, for non-negative widths: "b<w>" for a bilateral token and plain
      "<w>" for a convolution, as in the default "64_128_256_256". */
  function FormatToken(t: Token): (p: string)
    requires t.width >= 0
    ensures NoSep(p, '_')
  {
    if t.kind == Bilateral then "b" + Str(t.width) else Str(t.width)
  }

  function FormatPieces(ts: seq<Token>): (ps: seq<string>)
    requires forall k :: 0 <= k < |ts| ==> ts[k].width >= 0
    ensures |ps| == |ts| && forall k :: 0 <= k < |ts| ==> ps[k] == FormatToken(ts[k])
  {
    seq(|ts|, k requires 0 <= k < |ts| => FormatToken(ts[k]))
  }

  function FormatArch(ts: seq<Token>): string
    requires forall k :: 0 <= k < |ts| ==> ts[k].width >= 0
  {
    Join(FormatPieces(ts), '_')
  }

  lemma ParseFormatToken(t: Token)
    requires t.width >= 0
    ensures ParseToken(FormatToken(t)) == Ok(t)
  {
    var s := Str(t.width);
    ParseIntStr(t.width);
    if t.kind == Bilateral {
      assert ("b" + s)[1..] == s;
    } else {
      assert IsDigit(s[0]);
    }
  }

  /** Round trip: an architecture printed by FormatArch parses back to the same tokens. */
  lemma ParseFormatArch(ts: seq<Token>)
    requires |ts| >= 1
    requires forall k :: 0 <= k < |ts| ==> ts[k].width >= 0
    ensures ParseArch(FormatArch(ts)) == Ok(ts)
  {
    var ps := FormatPieces(ts);
    SplitJoin(ps, '_');
    assert Split(FormatArch(ts), '_') == ps;
    forall k | 0 <= k < |ts| ensures ParseToken(ps[k]) == Ok(ts[k]) {
      ParseFormatToken(ts[k]);
    }
    var r := ParseTokens(ps);
    assert r.Ok?;
    assert r.value == ts by {
      assert forall k :: 0 <= k < |ts| ==> Ok(r.value[k]) == Ok(ts[k]);
    }
  }

  /** Every '_'-separated piece of the string becomes exactly one token, in order. */
  lemma ParseArchPieces(arch: string)
    requires ParseArch(arch).Ok?
    ensures var ts := ParseArch(arch).value; var ps := Split(arch, '_');
      |ts| == |ps| && |ts| >= 1 && forall k :: 0 <= k < |ps| ==> ParseToken(ps[k]) == Ok(ts[k])
  {
  }

  /** An empty architecture string, or one with an empty piece, raises IndexError on `v[0]`. */
  lemma EmptyPieceFails(arch: string, k: nat)
    requires k < |Split(arch, '_')| && Split(arch, '_')[k] == []
    ensures ParseArch(arch).Err?
  {
  }
}
