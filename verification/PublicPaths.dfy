// The gateway's public-path test: a test on strings that stands for one on path segments.
module PublicPaths {
  import opened Common

  // The pieces between slashes; there is one more of them than slashes.
  function Segments(s: string): (r: seq<string>)
    ensures |r| > 0
  {
    if s == "" then [""]
    else
      var rest := Segments(s[1..]);
      if s[0] == '/' then [""] + rest else [[s[0]] + rest[0]] + rest[1..]
  }

  function Joined(segments: seq<string>): string
    requires |segments| > 0
  {
    if |segments| == 1 then segments[0] else segments[0] + "/" + Joined(segments[1..])
  }

  // Splitting loses nothing.
  lemma {:induction false} JoinedSegments(s: string)
    ensures Joined(Segments(s)) == s
  {
    if s != "" {
      JoinedSegments(s[1..]);
      var rest := Segments(s[1..]);
      if s[0] == '/' {
        assert ([""] + rest)[1..] == rest;
      } else {
        assert ([[s[0]] + rest[0]] + rest[1..])[1..] == rest[1..];
      }
    }
  }

  // The test the gateway makes.
  predicate StartsUnder(path: string, p: string) {
    path == p || p + "/" <= path
  }

  lemma SegmentsOfCons(c: char, s: string)
    ensures Segments([c] + s) == if c == '/' then [""] + Segments(s) else [[c] + Segments(s)[0]] + Segments(s)[1..]
  {
    assert ([c] + s)[1..] == s;
  }

  lemma {:induction false} SegmentsOfSubPath(p: string, rest: string)
    ensures Segments(p + "/" + rest) == Segments(p) + Segments(rest)
  {
    if p == "" {
      assert p + "/" + rest == ['/'] + rest;
      SegmentsOfCons('/', rest);
    } else {
      assert p + "/" + rest == [p[0]] + (p[1..] + "/" + rest);
      SegmentsOfSubPath(p[1..], rest);
      SegmentsOfCons(p[0], p[1..] + "/" + rest);
    }
  }

  lemma {:induction false} JoinedConcat(a: seq<string>, b: seq<string>)
    requires |a| > 0 && |b| > 0
    ensures Joined(a + b) == Joined(a) + "/" + Joined(b)
  {
    if |a| == 1 {
      assert (a + b)[1..] == b;
    } else {
      assert (a + b)[1..] == a[1..] + b;
      JoinedConcat(a[1..], b);
      assert a[0] + "/" + (Joined(a[1..]) + "/" + Joined(b)) == (a[0] + "/" + Joined(a[1..])) + "/" + Joined(b);
    }
  }

  // For all strings the string test is the segment test: p's segments start the path's.
  lemma StartsUnderIsSegmentPrefix(path: string, p: string)
    ensures StartsUnder(path, p) <==> Segments(p) <= Segments(path)
  {
    if p + "/" <= path {
      var rest := path[|p| + 1..];
      assert path == p + "/" + rest;
      SegmentsOfSubPath(p, rest);
    }
    if Segments(p) <= Segments(path) {
      var rest := Segments(path)[|Segments(p)|..];
      assert Segments(path) == Segments(p) + rest;
      JoinedSegments(path);
      JoinedSegments(p);
      if rest == [] {
        assert Segments(path) == Segments(p);
      } else {
        JoinedConcat(Segments(p), rest);
        assert p + "/" <= p + "/" + Joined(rest);
      }
    }
  }

  // Public: some listed path's segments start the path's.
  predicate Public(publicPaths: seq<string>, path: string) {
    exists i :: 0 <= i < |publicPaths| && Segments(publicPaths[i]) <= Segments(path)
  }

  // Everything under a public path is public.
  lemma SubPathsArePublic(publicPaths: seq<string>, path: string, rest: string)
    requires Public(publicPaths, path)
    ensures Public(publicPaths, path + "/" + rest)
  {
    SegmentsOfSubPath(path, rest);
    var i :| 0 <= i < |publicPaths| && Segments(publicPaths[i]) <= Segments(path);
    assert Segments(publicPaths[i]) <= Segments(path + "/" + rest);
  }

  // A listed path continued by anything but a slash becomes public through some other entry only.
  lemma NoSiblingLeaks(p: string, c: char, rest: string)
    requires c != '/'
    ensures !(Segments(p) <= Segments(p + [c] + rest))
  {
    StartsUnderIsSegmentPrefix(p + [c] + rest, p);
    assert (p + [c] + rest)[|p|] == c && (p + "/")[|p|] == '/';
  }

  // ---- The middleware ---------------------------------------------------------------------------

  datatype Decision = Next(claims: Option<string>) | MissingHeader | NotBearer | InvalidToken

  const BEARER := "Bearer "

  // The decision for a path and an Authorization header; validate says whose token it is.
  function Decide(publicPaths: seq<string>, path: string, header: string, validate: string -> Option<string>): Decision {
    if Public(publicPaths, path) then Next(None)
    else if header == "" then MissingHeader
    else if !(BEARER <= header) then NotBearer
    else
      match validate(header[|BEARER|..])
      case None => InvalidToken
      case Some(claims) => Next(Some(claims))
  }

  // Without a valid bearer token only public paths get through.  What gets through a guarded
  // path carries the claims of its own token, what gets through a public one carries none, and
  // each refusal says what the header lacks.
  lemma GuardedPathsNeedToken(publicPaths: seq<string>, path: string, header: string, validate: string -> Option<string>)
    ensures Decide(publicPaths, path, header, validate) == Next(None) <==> Public(publicPaths, path)
    ensures forall claims :: Decide(publicPaths, path, header, validate) == Next(Some(claims)) <==>
      !Public(publicPaths, path) && exists token :: header == "Bearer " + token && validate(token) == Some(claims)
    ensures Decide(publicPaths, path, header, validate) == MissingHeader <==> !Public(publicPaths, path) && header == ""
    ensures Decide(publicPaths, path, header, validate) == NotBearer <==>
      !Public(publicPaths, path) && header != "" && forall token :: header != "Bearer " + token
    ensures Decide(publicPaths, path, header, validate) == InvalidToken <==>
      !Public(publicPaths, path) && exists token :: header == "Bearer " + token && validate(token) == None
  {
    if BEARER <= header {
      assert header == BEARER + header[|BEARER|..];
    }
    forall token | header == BEARER + token
      ensures BEARER <= header && token == header[|BEARER|..]
    {
    }
  }

  function TrimPrefix(s: string, prefix: string): string {
    if prefix <= s then s[|prefix|..] else s
  }

  class JWTAuthMiddleware {
    const publicPaths: seq<string>
    var publicSet: set<string>

    ghost predicate Valid()
      reads this
    {
      publicSet == Elements(publicPaths)
    }

    constructor (publicPaths: seq<string>)
      ensures Valid() && this.publicPaths == publicPaths
    {
      this.publicPaths := publicPaths;
      publicSet := {};
      new;
      for i := 0 to |publicPaths|
        invariant publicSet == Elements(publicPaths[..i])
      {
        AppendFresh(publicPaths[..i], publicPaths[i]);
        assert publicPaths[..i + 1] == publicPaths[..i] + [publicPaths[i]];
        publicSet := publicSet + {publicPaths[i]};
      }
      assert publicPaths[..|publicPaths|] == publicPaths;
    }

    method IsPublic(path: string) returns (r: bool)
      requires Valid()
      ensures r == Public(publicPaths, path)
    {
      forall i | 0 <= i < |publicPaths|
        ensures StartsUnder(path, publicPaths[i]) <==> Segments(publicPaths[i]) <= Segments(path)
      {
        StartsUnderIsSegmentPrefix(path, publicPaths[i]);
      }
      if path in publicSet {
        var i :| 0 <= i < |publicPaths| && publicPaths[i] == path;
        assert StartsUnder(path, publicPaths[i]);
        return true;
      }
      for i := 0 to |publicPaths|
        invariant forall j :: 0 <= j < i ==> !StartsUnder(path, publicPaths[j])
      {
        if publicPaths[i] + "/" <= path {
          assert StartsUnder(path, publicPaths[i]);
          return true;
        }
        assert publicPaths[i] in publicPaths;
      }
      return false;
    }

    method Handle(path: string, header: string, validate: string -> Option<string>) returns (d: Decision)
      requires Valid()
      ensures d == Decide(publicPaths, path, header, validate)
      ensures d == Next(None) <==> Public(publicPaths, path)
      ensures forall claims :: d == Next(Some(claims)) <==>
        !Public(publicPaths, path) && exists token :: header == "Bearer " + token && validate(token) == Some(claims)
    {
      GuardedPathsNeedToken(publicPaths, path, header, validate);
      var open := IsPublic(path);
      if open {
        return Next(None);
      }
      if header == "" {
        return MissingHeader;
      }
      var token := TrimPrefix(header, BEARER);
      if token == header {
        return NotBearer;
      }
      match validate(token)
      case None => return InvalidToken;
      case Some(claims) => return Next(Some(claims));
    }
  }
}
