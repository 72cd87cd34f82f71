/** Resolution of the request URL: named placeholders are filled in from the
    client's parameters, then the file extension is forced to `.json`. */
module UrlTemplate {
  import opened Wrappers

  /** The four parameters a template may name. */
  datatype Field = Address | Branch | AppName | Profile

  function FieldName(f: Field): string
  {
    match f
    case Address => "address"
    case Branch => "branch"
    case AppName => "app_name"
    case Profile => "profile"
  }

  /** The placeholder text naming `f`, such as `{address}`. */
  function Placeholder(f: Field): string
  {
    "{" + FieldName(f) + "}"
  }

  /** The values the placeholders stand for. */
  datatype Bindings = Bindings(address: string, branch: string, appName: string, profile: string)
  {
    function Lookup(f: Field): string
    {
      match f
      case Address => address
      case Branch => branch
      case AppName => appName
      case Profile => profile
    }
  }

  /** A template is read as a sequence of literal characters and placeholders. */
  datatype Piece = Char(c: char) | Hole(field: Field)

  /** The placeholder the text starts with, if any. */
  function HoleAt(t: string): (r: Option<Field>)
    ensures r.Some? ==> Placeholder(r.value) <= t
    ensures r.None? ==> forall f :: !(Placeholder(f) <= t)
  {
    if Placeholder(Address) <= t then Some(Address)
    else if Placeholder(Branch) <= t then Some(Branch)
    else if Placeholder(AppName) <= t then Some(AppName)
    else if Placeholder(Profile) <= t then Some(Profile)
    else None
  }

  /** Reads a template left to right; braces that do not spell one of the
      four placeholders are kept as literal text. */
  function Tokenize(t: string): seq<Piece>
    decreases |t|
  {
    if |t| == 0 then []
    else
      match HoleAt(t)
      case Some(f) => [Hole(f)] + Tokenize(t[|Placeholder(f)|..])
      case None => [Char(t[0])] + Tokenize(t[1..])
  }

  /** The template text a piece was read from. */
  function Text(p: Piece): string
  {
    match p
    case Char(c) => [c]
    case Hole(f) => Placeholder(f)
  }

  function Untokenize(ps: seq<Piece>): string
    decreases |ps|
  {
    if |ps| == 0 then "" else Text(ps[0]) + Untokenize(ps[1..])
  }

  /** The text a piece stands for once the placeholders are filled in. */
  function Fill(p: Piece, b: Bindings): string
  {
    match p
    case Char(c) => [c]
    case Hole(f) => b.Lookup(f)
  }

  function Render(ps: seq<Piece>, b: Bindings): string
    decreases |ps|
  {
    if |ps| == 0 then "" else Fill(ps[0], b) + Render(ps[1..], b)
  }

  /** Substitutes every placeholder of `t` by the value bound to its name.
      Text without braces comes out unchanged, and binding every name to its
      own placeholder gives the template back: nothing but the placeholders
      is ever rewritten. */
  function Resolve(t: string, b: Bindings): (r: string)
    ensures '{' !in t ==> r == t
    ensures b == SelfBindings() ==> r == t
  {
    RenderBraceFree(t, b);
    RenderSelf(Tokenize(t));
    UntokenizeTokenize(t);
    Render(Tokenize(t), b)
  }

  /** A brace-free template is read as plain characters and rendered as
      itself. */
  lemma {:induction false} RenderBraceFree(t: string, b: Bindings)
    ensures '{' !in t ==> Render(Tokenize(t), b) == t
    decreases |t|
  {
    if |t| > 0 && '{' !in t {
      TokenizeChar(t[0], t[1..]);
      assert t == [t[0]] + t[1..];
      assert ([Char(t[0])] + Tokenize(t[1..]))[1..] == Tokenize(t[1..]);
      RenderBraceFree(t[1..], b);
    }
  }

  /** Tokenizing loses nothing: the pieces spell the template again. */
  lemma {:induction false} UntokenizeTokenize(t: string)
    ensures Untokenize(Tokenize(t)) == t
    decreases |t|
  {
    if |t| > 0 {
      match HoleAt(t)
      case Some(f) =>
        var n := |Placeholder(f)|;
        UntokenizeTokenize(t[n..]);
        assert ([Hole(f)] + Tokenize(t[n..]))[1..] == Tokenize(t[n..]);
        assert t == t[..n] + t[n..];
      case None =>
        UntokenizeTokenize(t[1..]);
        assert ([Char(t[0])] + Tokenize(t[1..]))[1..] == Tokenize(t[1..]);
        assert t == [t[0]] + t[1..];
    }
  }

  /** No placeholder is a prefix of another placeholder's text followed by
      anything: `{address}` and `{app_name}` differ at their third character,
      and the others at their second. */
  lemma PlaceholderPrefixFree(f: Field, g: Field, rest: string)
    requires Placeholder(g) <= Placeholder(f) + rest
    ensures g == f
  {
    var s := Placeholder(f) + rest;
    assert s[1] == Placeholder(g)[1] && s[2] == Placeholder(g)[2];
    assert s[1] == Placeholder(f)[1] && s[2] == Placeholder(f)[2];
  }

  /** A text starting with a placeholder is read as that placeholder. */
  lemma HoleAtPlaceholder(f: Field, rest: string)
    ensures HoleAt(Placeholder(f) + rest) == Some(f)
  {
    var r := HoleAt(Placeholder(f) + rest);
    assert Placeholder(f) <= Placeholder(f) + rest;
    PlaceholderPrefixFree(f, r.value, rest);
  }

  /** A text starting with any character other than `{` starts with no
      placeholder. */
  lemma HoleAtChar(c: char, rest: string)
    requires c != '{'
    ensures HoleAt([c] + rest) == None
  {
    forall f: Field ensures !(Placeholder(f) <= [c] + rest) {
      assert Placeholder(f)[0] == '{';
    }
  }

  lemma TokenizePlaceholder(f: Field, rest: string)
    ensures Tokenize(Placeholder(f) + rest) == [Hole(f)] + Tokenize(rest)
  {
    HoleAtPlaceholder(f, rest);
    assert (Placeholder(f) + rest)[|Placeholder(f)|..] == rest;
  }

  lemma TokenizeChar(c: char, rest: string)
    requires c != '{'
    ensures Tokenize([c] + rest) == [Char(c)] + Tokenize(rest)
  {
    HoleAtChar(c, rest);
    assert ([c] + rest)[1..] == rest;
  }

  /** Conversely, pieces with no literal `{` are read back exactly from
      their text: the template syntax is unambiguous. */
  lemma {:induction false} TokenizeUntokenize(ps: seq<Piece>)
    requires forall i :: 0 <= i < |ps| ==> ps[i] != Char('{')
    ensures Tokenize(Untokenize(ps)) == ps
    decreases |ps|
  {
    if |ps| > 0 {
      var tail := ps[1..];
      assert forall i :: 0 <= i < |tail| ==> tail[i] == ps[i + 1];
      TokenizeUntokenize(tail);
      var rest := Untokenize(tail);
      assert ps == [ps[0]] + tail;
      match ps[0]
      case Char(c) =>
        assert Untokenize(ps) == [c] + rest;
        TokenizeChar(c, rest);
      case Hole(f) =>
        assert Untokenize(ps) == Placeholder(f) + rest;
        TokenizePlaceholder(f, rest);
    }
  }

  /** Filling in is done piece by piece. */
  lemma {:induction false} RenderAppend(a: seq<Piece>, c: seq<Piece>, b: Bindings)
    ensures Render(a + c, b) == Render(a, b) + Render(c, b)
    decreases |a|
  {
    if |a| == 0 {
      assert a + c == c;
    } else {
      assert (a + c)[0] == a[0];
      assert (a + c)[1..] == a[1..] + c;
      RenderAppend(a[1..], c, b);
    }
  }

  /** A placeholder is replaced by the value bound to its NAME, wherever it
      stands in the template. */
  lemma ResolvePlaceholder(f: Field, rest: string, b: Bindings)
    ensures Resolve(Placeholder(f) + rest, b) == b.Lookup(f) + Resolve(rest, b)
  {
    TokenizePlaceholder(f, rest);
    assert ([Hole(f)] + Tokenize(rest))[1..] == Tokenize(rest);
  }

  /** Text without `{` is copied unchanged into the result. */
  lemma {:induction false} ResolveLiteral(s: string, rest: string, b: Bindings)
    requires '{' !in s
    ensures Resolve(s + rest, b) == s + Resolve(rest, b)
    decreases |s|
  {
    if |s| > 0 {
      assert s + rest == [s[0]] + (s[1..] + rest);
      TokenizeChar(s[0], s[1..] + rest);
      assert ([Char(s[0])] + Tokenize(s[1..] + rest))[1..] == Tokenize(s[1..] + rest);
      ResolveLiteral(s[1..], rest, b);
      assert s == [s[0]] + s[1..];
    } else {
      assert s + rest == rest;
    }
  }

  /** Binding every name to its own placeholder turns resolution into the
      identity: nothing but the placeholders is ever rewritten. */
  function SelfBindings(): Bindings
  {
    Bindings(Placeholder(Address), Placeholder(Branch), Placeholder(AppName), Placeholder(Profile))
  }

  lemma {:induction false} RenderSelf(ps: seq<Piece>)
    ensures Render(ps, SelfBindings()) == Untokenize(ps)
    decreases |ps|
  {
    if |ps| > 0 {
      RenderSelf(ps[1..]);
      assert Fill(ps[0], SelfBindings()) == Text(ps[0]);
    }
  }


  /** A template of four placeholders in any order, separated as in
      `{address}/{branch}/{app_name}-{profile}` and followed by a brace-free
      suffix, is filled in with the value of each placeholder's own name. */
  lemma ResolveDocumentLayout(b: Bindings, f1: Field, f2: Field, f3: Field, f4: Field, suffix: string)
    requires '{' !in suffix
    ensures Resolve(Placeholder(f1) + ("/" + (Placeholder(f2) + ("/" + (Placeholder(f3)
                    + ("-" + (Placeholder(f4) + suffix)))))), b)
         == b.Lookup(f1) + ("/" + (b.Lookup(f2) + ("/" + (b.Lookup(f3) + ("-" + (b.Lookup(f4) + suffix))))))
  {
    var t4 := Placeholder(f4) + suffix;
    var t3 := Placeholder(f3) + ("-" + t4);
    var t2 := Placeholder(f2) + ("/" + t3);
    ResolveLiteral(suffix, "", b);
    assert suffix + "" == suffix;
    ResolvePlaceholder(f4, suffix, b);
    assert Resolve(t4, b) == b.Lookup(f4) + suffix;
    ResolveLiteral("-", t4, b);
    ResolvePlaceholder(f3, "-" + t4, b);
    assert Resolve(t3, b) == b.Lookup(f3) + ("-" + (b.Lookup(f4) + suffix));
    ResolveLiteral("/", t3, b);
    ResolvePlaceholder(f2, "/" + t3, b);
    assert Resolve(t2, b) == b.Lookup(f2) + ("/" + (b.Lookup(f3) + ("-" + (b.Lookup(f4) + suffix))));
    ResolveLiteral("/", t2, b);
    ResolvePlaceholder(f1, "/" + t2, b);
  }
}
