/** The admin router and its middleware chain (src/shared/admin-api/router.ts). */
module AdminRouter {
  import opened Wrappers

  // ---- the middleware chain ------------------------------------------------------------

  /**
   A chain of `size` middleware, then the terminal at position `size`. `index`
   is the highest position started; `started` lists the starts in order.
   */
  datatype Chain = Chain(size: nat, index: int, started: seq<nat>)

  datatype Outcome = Started | Threw

  datatype Step = Step(chain: Chain, outcome: Outcome)

  function Dispatch(c: Chain, position: nat): Step {
    if position <= c.index then Step(c, Threw)
    else Step(c.(index := position, started := c.started + [position]), Started)
  }

  function Begin(size: nat): Chain {
    Dispatch(Chain(size, -1, []), 0).chain
  }

  /**
   Any calls of `next`, named by the middleware whose `next` it is: a
   middleware may call it any number of times, at any time, returned or not.
   */
  function Calls(size: nat, callers: seq<nat>): Chain {
    if callers == [] then Begin(size)
    else Dispatch(Calls(size, callers[..|callers| - 1]), callers[|callers| - 1] + 1).chain
  }

  /** Only a middleware that has started has a `next` to call; the terminal has none. */
  ghost predicate Possible(size: nat, callers: seq<nat>) {
    forall k :: 0 <= k < |callers| ==> MayCall(size, callers[..k], callers[k])
  }

  predicate MayCall(size: nat, before: seq<nat>, caller: nat) {
    caller < size && caller in Calls(size, before).started
  }

  function UpTo(n: nat): (r: seq<nat>)
    ensures |r| == n && forall i :: 0 <= i < n ==> r[i] == i
  {
    seq(n, i => i)
  }

  /** The `runMiddleware` closure: the one mutable variable, and what it lets through. */
  class Runner {
    const size: nat
    var index: int
    var started: seq<nat>

    constructor (size: nat)
      ensures this.size == size && Chain(size, index, started) == Begin(size)
    {
      this.size, index, started := size, 0, [0];
    }

    method DispatchAt(position: nat) returns (outcome: Outcome)
      modifies this`index, this`started
      ensures Step(Chain(size, index, started), outcome) == Dispatch(Chain(size, old(index), old(started)), position)
    {
      if position <= index { return Threw; }
      index := position;
      started := started + [position];
      outcome := Started;
    }
  }

  lemma PossiblePrefix(size: nat, callers: seq<nat>)
    requires Possible(size, callers) && callers != []
    ensures var front := callers[..|callers| - 1];
            Possible(size, front) && MayCall(size, front, callers[|callers| - 1])
  {
    var front := callers[..|callers| - 1];
    forall k | 0 <= k < |front| ensures MayCall(size, front[..k], front[k]) {
      assert front[..k] == callers[..k];
      assert MayCall(size, callers[..k], callers[k]);
    }
    assert MayCall(size, callers[..|callers| - 1], callers[|callers| - 1]);
  }

  /**
   Whatever the middleware do: positions 0, 1, 2 and so on have started, each
   once and in this order, the terminal last.
   */
  lemma {:induction false} StartedInOrder(size: nat, callers: seq<nat>)
    requires Possible(size, callers)
    ensures var c := Calls(size, callers);
            && 0 <= c.index <= size && c.started == UpTo(c.index + 1)
            && forall p: nat :: p in callers <==> p < c.index
  {
    hide Possible;
    if callers == [] {
      assert UpTo(1) == [0];
    } else {
      var front, last := callers[..|callers| - 1], callers[|callers| - 1];
      PossiblePrefix(size, callers);
      assert last < size && last in Calls(size, front).started;
      hide MayCall;
      StartedInOrder(size, front);
      var c := Calls(size, front);
      InUpTo(c.index + 1, last);
      UpToNext(c.index + 1);
      Snoc(front, last, callers);
    }
  }

  lemma InUpTo(n: nat, p: nat)
    ensures p in UpTo(n) <==> p < n
  {
    if p < n { assert UpTo(n)[p] == p; }
  }

  lemma UpToNext(n: nat)
    ensures UpTo(n) + [n] == UpTo(n + 1)
  {
  }

  lemma Snoc(front: seq<nat>, last: nat, all: seq<nat>)
    requires all == front + [last]
    ensures forall p: nat :: p in all <==> p in front || p == last
  {
  }

  /** A call of `next` starts the position behind its caller, unless that caller called it before: then it throws. */
  lemma NextThrowsIffCalledBefore(size: nat, callers: seq<nat>, caller: nat)
    requires Possible(size, callers) && MayCall(size, callers, caller)
    ensures var c := Calls(size, callers); var s := Dispatch(c, caller + 1);
            && (s.outcome == Threw <==> caller in callers)
            && s.chain.started == (if caller in callers then c.started else c.started + [caller + 1])
            && (caller !in callers ==> caller + 1 !in c.started)
  {
    StartedInOrder(size, callers);
  }

  /** If every middleware calls `next` in turn, all of them run and then the terminal. */
  lemma {:induction false} AllRun(size: nat, n: nat)
    requires n <= size
    ensures Possible(size, UpTo(n)) && Calls(size, UpTo(n)).started == UpTo(n + 1)
  {
    assert UpTo(1) == [0] && UpTo(0) == [];
    if n > 0 {
      AllRun(size, n - 1);
      var front, all := UpTo(n - 1), UpTo(n);
      UpToNext(n - 1);
      UpToNext(n);
      assert all[..n - 1] == front;
      StartedInOrder(size, front);
      InUpTo(n, n - 1);
      assert MayCall(size, front, n - 1);
      MoreIsPossible(size, front, n - 1);
      assert |Calls(size, front).started| == n == |UpTo(Calls(size, front).index + 1)|;
      hide Possible, MayCall;
    }
  }

  lemma MoreIsPossible(size: nat, front: seq<nat>, last: nat)
    requires Possible(size, front) && MayCall(size, front, last)
    ensures Possible(size, front + [last])
  {
    hide MayCall;
    var all := front + [last];
    assert all[..|front|] == front;
    forall k | 0 <= k < |all| ensures MayCall(size, all[..k], all[k]) {
      if k < |front| {
        assert all[..k] == front[..k];
        assert MayCall(size, front[..k], front[k]);
      }
    }
  }

  // ---- paths ---------------------------------------------------------------------------------

  /** The non-empty pieces between slashes. */
  function SplitPath(path: string): seq<string> {
    SplitFrom(path, "")
  }

  /** The rest of the path, after the piece read so far. */
  function SplitFrom(path: string, piece: string): seq<string> {
    if path == "" then Piece(piece)
    else if path[0] == '/' then Piece(piece) + SplitFrom(path[1..], "")
    else SplitFrom(path[1..], piece + [path[0]])
  }

  function Piece(piece: string): seq<string> {
    if piece == "" then [] else [piece]
  }

  function Join(segments: seq<string>): string {
    if segments == [] then "" else "/" + segments[0] + Join(segments[1..])
  }

  predicate GoodSegment(s: string) {
    s != "" && '/' !in s
  }

  /** Segments are never empty and contain no slash. */
  lemma {:induction false} SegmentsAreGood(path: string, piece: string)
    requires '/' !in piece
    ensures forall s :: s in SplitFrom(path, piece) ==> GoodSegment(s)
    decreases |path|
  {
    if path != "" {
      if path[0] == '/' { SegmentsAreGood(path[1..], ""); } else { SegmentsAreGood(path[1..], piece + [path[0]]); }
    }
  }

  /** A segment is read whole, up to the slash or the end. */
  lemma {:induction false} SegmentRead(s: string, rest: string, piece: string)
    requires '/' !in s && (rest == "" || rest[0] == '/')
    ensures SplitFrom(s + rest, piece) == SplitFrom(rest, piece + s)
    decreases |s|
  {
    if s == "" {
      assert s + rest == rest && piece + s == piece;
    } else {
      assert (s + rest)[1..] == s[1..] + rest;
      SegmentRead(s[1..], rest, piece + [s[0]]);
      assert piece + [s[0]] + s[1..] == piece + s;
    }
  }

  /** Splitting what was joined gives the segments back. */
  lemma {:induction false} SplitJoin(segments: seq<string>)
    requires forall s :: s in segments ==> GoodSegment(s)
    ensures SplitPath(Join(segments)) == segments
  {
    if segments != [] {
      var s, rest := segments[0], Join(segments[1..]);
      assert s in segments;
      SplitJoin(segments[1..]);
      assert Join(segments) == "/" + (s + rest) && (Join(segments))[1..] == s + rest;
      SegmentRead(s, rest, "");
      assert "" + s == s;
      assert rest != "" ==> SplitFrom(rest, "") == [] + SplitFrom(rest[1..], "") == SplitFrom(rest[1..], "");
      assert segments == [s] + segments[1..];
    }
  }

  // ---- routes ------------------------------------------------------------------------------------

  /** `decodeURIComponent`, None where it throws. */
  type Decoder = string -> Option<string>

  datatype Route = Route(verb: string, segments: seq<string>, handler: nat, middleware: nat)

  predicate Captures(pattern: string) {
    pattern != "" && pattern[0] == ':'
  }

  /** One segment of the path against one of the pattern. */
  predicate Accepts(pattern: string, actual: string, decode: Decoder) {
    if Captures(pattern) then decode(actual).Some? && decode(actual).value != "" else pattern == actual
  }

  /** The whole pattern accepts the path. */
  predicate Fits(r: Route, path: seq<string>, decode: Decoder) {
    |r.segments| == |path| && forall i :: 0 <= i < |path| ==> Accepts(r.segments[i], path[i], decode)
  }

  /** The comparison stops at a captured segment that cannot be decoded. */
  predicate Chokes(r: Route, path: seq<string>, decode: Decoder) {
    |r.segments| == |path| &&
    exists k :: 0 <= k < |path| && Captures(r.segments[k]) && decode(path[k]).None? &&
                forall i :: 0 <= i < k ==> Accepts(r.segments[i], path[i], decode)
  }

  /** The captured values, a later capture of the same name overwriting an earlier one. */
  function Params(pattern: seq<string>, path: seq<string>, decode: Decoder): map<string, string>
    requires |pattern| == |path|
  {
    if pattern == [] then map[]
    else
      var n := |pattern| - 1;
      var before := Params(pattern[..n], path[..n], decode);
      if Captures(pattern[n]) && decode(path[n]).Some? then before[pattern[n][1..] := decode(path[n]).value] else before
  }

  datatype Found = Matched(at: nat, params: map<string, string>) | WrongMethod | NoRoute | BadEncoding(at: nat)

  /** The first route that settles the search: it fits with this method, or chokes. */
  predicate Settles(r: Route, verb: string, path: seq<string>, decode: Decoder) {
    Chokes(r, path, decode) || (Fits(r, path, decode) && r.verb == verb)
  }

  datatype Reply = Handled(route: Route, params: map<string, string>) | Status(code: int) | Failed

  class Router {
    var routes: seq<Route>

    constructor ()
      ensures routes == []
    {
      routes := [];
    }

    /** Routes are kept in order of registration; the method in capitals. */
    method Register(verb: string, pattern: string, handler: nat, middleware: nat)
      modifies this
      ensures |routes| == |old(routes)| + 1 && routes[..|old(routes)|] == old(routes)
      ensures var r := routes[|old(routes)|];
              && r.verb == Upper(verb) && r.segments == SplitPath(pattern)
              && r.handler == handler && r.middleware == middleware
    {
      routes := routes + [Route(Upper(verb), SplitPath(pattern), handler, middleware)];
    }

    /**
     The earliest route that fits the path and the method, with its captures;
     405 exactly if a path fits but no method does, nothing exactly if no path
     fits. A segment that cannot be decoded ends the search where it is met.
     */
    method Match(verb: string, path: seq<string>, decode: Decoder) returns (found: Found)
      ensures found.Matched? ==>
                && found.at < |routes| && Fits(routes[found.at], path, decode) && routes[found.at].verb == verb
                && found.params == Params(routes[found.at].segments, path, decode)
                && forall j :: 0 <= j < found.at ==> !Settles(routes[j], verb, path, decode)
      ensures found.BadEncoding? ==>
                && found.at < |routes| && Chokes(routes[found.at], path, decode)
                && forall j :: 0 <= j < found.at ==> !Settles(routes[j], verb, path, decode)
      ensures found.WrongMethod? ==>
                && (exists j :: 0 <= j < |routes| && Fits(routes[j], path, decode))
                && forall j :: 0 <= j < |routes| ==> !Settles(routes[j], verb, path, decode)
      ensures found.NoRoute? ==>
                forall j :: 0 <= j < |routes| ==> !Fits(routes[j], path, decode) && !Chokes(routes[j], path, decode)
    {
      var otherMethod := false;
      for i := 0 to |routes|
        invariant forall j :: 0 <= j < i ==> !Settles(routes[j], verb, path, decode)
        invariant otherMethod <==> exists j :: 0 <= j < i && Fits(routes[j], path, decode)
      {
        var r := routes[i];
        if |r.segments| != |path| { continue; }
        var chokes, matched, params := MatchSegments(r, path, decode);
        if chokes { return BadEncoding(i); }
        if !matched { continue; }
        if r.verb != verb { otherMethod := true; continue; }
        return Matched(i, params);
      }
      found := if otherMethod then WrongMethod else NoRoute;
    }

    method MatchSegments(r: Route, path: seq<string>, decode: Decoder)
      returns (chokes: bool, matched: bool, params: map<string, string>)
      requires |r.segments| == |path|
      ensures chokes <==> Chokes(r, path, decode)
      ensures matched <==> Fits(r, path, decode)
      ensures matched ==> params == Params(r.segments, path, decode)
    {
      chokes, matched, params := false, true, map[];
      for i := 0 to |path|
        invariant forall j :: 0 <= j < i ==> Accepts(r.segments[j], path[j], decode)
        invariant params == Params(r.segments[..i], path[..i], decode)
      {
        var pattern, actual := r.segments[i], path[i];
        assert r.segments[..i + 1][..i] == r.segments[..i] && path[..i + 1][..i] == path[..i];
        if Captures(pattern) {
          var value := decode(actual);
          if value.None? {
            assert !Accepts(pattern, actual, decode);
            return true, false, params;
          }
          if value.value == "" {
            FirstRejection(r, path, decode, i);
            return false, false, params;
          }
          params := params[pattern[1..] := value.value];
          continue;
        }
        if pattern != actual {
          FirstRejection(r, path, decode, i);
          return false, false, params;
        }
      }
      assert r.segments[..|path|] == r.segments && path[..|path|] == path;
    }

    /** dispatch: the middleware chain and the handler are those of the route found. */
    method DispatchRequest(verb: string, path: string, hasCaller: bool, decode: Decoder) returns (reply: Reply)
      ensures var segments := SplitPath(path);
              (forall s :: s in segments ==> decode(s).Some?) ==>
                && (reply == Status(404) <==> forall j :: 0 <= j < |routes| ==> !Fits(routes[j], segments, decode))
                && (reply == Status(405) <==> (exists j :: 0 <= j < |routes| && Fits(routes[j], segments, decode)) &&
                                              forall j :: 0 <= j < |routes| && Fits(routes[j], segments, decode) ==>
                                                            routes[j].verb != verb)
                && (reply.Handled? ==>
                      (hasCaller &&
                       exists i :: 0 <= i < |routes| && Fits(routes[i], segments, decode) && routes[i].verb == verb &&
                                   reply == Handled(routes[i], Params(routes[i].segments, segments, decode)) &&
                                   forall j :: 0 <= j < i ==>
                                     !(Fits(routes[j], segments, decode) && routes[j].verb == verb)))
                && ((exists j :: 0 <= j < |routes| && Fits(routes[j], segments, decode) && routes[j].verb == verb) ==>
                      (if hasCaller then reply.Handled? else reply == Status(500)))
                && reply != Failed
      ensures var segments := SplitPath(path);
              reply == Failed <==>
                exists i :: 0 <= i < |routes| && Chokes(routes[i], segments, decode) &&
                            forall j :: 0 <= j < i ==> !Settles(routes[j], verb, segments, decode)
    {
      hide Fits, Chokes, Params, SplitPath;
      var segments := SplitPath(path);
      var found := Match(verb, segments, decode);
      forall r { DecodableNeverChokes(r, segments, decode); }
      forall r { ChokesOrFits(r, segments, decode); }
      match found {
        case WrongMethod =>
          assert forall j :: 0 <= j < |routes| ==> !Settles(routes[j], verb, segments, decode);
          reply := Status(405);
        case NoRoute => reply := Status(404);
        case BadEncoding(_) => reply := Failed;
        case Matched(i, params) => reply := if hasCaller then Handled(routes[i], params) else Status(500);
      }
    }
  }

  lemma ChokesOrFits(r: Route, path: seq<string>, decode: Decoder)
    ensures !(Chokes(r, path, decode) && Fits(r, path, decode))
  {
  }

  lemma DecodableNeverChokes(r: Route, path: seq<string>, decode: Decoder)
    ensures (forall s :: s in path ==> decode(s).Some?) ==> !Chokes(r, path, decode)
  {
  }

  /** A segment that is rejected without choking means the route neither fits nor chokes. */
  lemma FirstRejection(r: Route, path: seq<string>, decode: Decoder, i: nat)
    requires i < |path| == |r.segments| && !Accepts(r.segments[i], path[i], decode)
    requires !(Captures(r.segments[i]) && decode(path[i]).None?)
    requires forall j :: 0 <= j < i ==> Accepts(r.segments[j], path[j], decode)
    ensures !Fits(r, path, decode) && !Chokes(r, path, decode)
  {
    forall k | 0 <= k < |path| && Captures(r.segments[k]) && decode(path[k]).None?
      ensures !(forall j :: 0 <= j < k ==> Accepts(r.segments[j], path[j], decode))
    {
      assert !Accepts(r.segments[k], path[k], decode);
    }
  }

  function UpperChar(c: char): char {
    if 'a' <= c <= 'z' then (c as int - 32) as char else c
  }

  /** toUpperCase on ASCII letters. */
  function Upper(s: string): (r: string)
    ensures |r| == |s| && forall i :: 0 <= i < |s| ==> r[i] == UpperChar(s[i])
  {
    seq(|s|, i requires 0 <= i < |s| => UpperChar(s[i]))
  }

  /** A method name is written in capitals, and a route registered in capitals keeps its name. */
  lemma UpperIs(s: string)
    ensures |Upper(s)| == |s|
    ensures forall i :: 0 <= i < |s| ==>
              if 'a' <= s[i] <= 'z' then 'A' <= Upper(s)[i] <= 'Z' && Upper(s)[i] as int + 32 == s[i] as int
              else Upper(s)[i] == s[i]
  {
  }

  /** A pattern without captures fits its own path and no other. */
  lemma LiteralsFitThemselves(r: Route, path: seq<string>, decode: Decoder)
    requires forall s :: s in r.segments ==> s == "" || s[0] != ':'
    ensures Fits(r, path, decode) <==> path == r.segments
    ensures !Chokes(r, path, decode)
  {
    forall i | 0 <= i < |r.segments| ensures r.segments[i] == "" || r.segments[i][0] != ':' {
      assert r.segments[i] in r.segments;
    }
    if Fits(r, path, decode) {
      forall i | 0 <= i < |path| ensures path[i] == r.segments[i] { assert Accepts(r.segments[i], path[i], decode); }
    }
  }

  /** The values in the places of the captures. */
  function Filled(pattern: seq<string>, values: seq<string>): (r: seq<string>)
    requires |values| == |pattern|
    ensures |r| == |pattern|
  {
    seq(|pattern|, i requires 0 <= i < |pattern| =>
      if pattern[i] != "" && pattern[i][0] == ':' then values[i] else pattern[i])
  }

  /**
   In general a pattern fits exactly the paths got by filling its captures with
   segments that decode to something.
   */
  lemma FitsIffFilled(r: Route, path: seq<string>, decode: Decoder)
    ensures Fits(r, path, decode) <==>
            |path| == |r.segments| && path == Filled(r.segments, path) &&
            forall i :: 0 <= i < |path| && r.segments[i] != "" && r.segments[i][0] == ':' ==>
              decode(path[i]).Some? && decode(path[i]).value != ""
  {
    if Fits(r, path, decode) {
      forall i | 0 <= i < |path|
        ensures path[i] == Filled(r.segments, path)[i]
        ensures r.segments[i] != "" && r.segments[i][0] == ':' ==> decode(path[i]).Some? && decode(path[i]).value != ""
      {
        assert Accepts(r.segments[i], path[i], decode);
      }
    }
    if |path| == |r.segments| && path == Filled(r.segments, path) {
      forall i | 0 <= i < |path| ensures path[i] == Filled(r.segments, path)[i] {}
    }
  }

  /** A path ends the search at the first captured segment that cannot be decoded, if all before it fits. */
  lemma ChokesIff(r: Route, path: seq<string>, decode: Decoder)
    ensures Chokes(r, path, decode) <==>
            |path| == |r.segments| &&
            exists k :: 0 <= k < |path| && r.segments[k] != "" && r.segments[k][0] == ':' && decode(path[k]).None? &&
                        path[..k] == Filled(r.segments[..k], path[..k]) &&
                        forall i :: 0 <= i < k && r.segments[i] != "" && r.segments[i][0] == ':' ==>
                          decode(path[i]).Some? && decode(path[i]).value != ""
  {
    if |path| == |r.segments| {
      forall k | 0 <= k <= |path|
        ensures (forall i :: 0 <= i < k ==> Accepts(r.segments[i], path[i], decode)) <==>
                path[..k] == Filled(r.segments[..k], path[..k]) &&
                forall i :: 0 <= i < k && r.segments[i] != "" && r.segments[i][0] == ':' ==>
                  decode(path[i]).Some? && decode(path[i]).value != ""
      {
        FitsIffFilled(r.(segments := r.segments[..k]), path[..k], decode);
        PrefixFits(r, path, decode, k);
      }
    }
  }

  lemma PrefixFits(r: Route, path: seq<string>, decode: Decoder, k: nat)
    requires k <= |path| == |r.segments|
    ensures Fits(r.(segments := r.segments[..k]), path[..k], decode) <==>
            forall i :: 0 <= i < k ==> Accepts(r.segments[i], path[i], decode)
  {
    var s, p := r.segments[..k], path[..k];
    if forall i :: 0 <= i < k ==> Accepts(s[i], p[i], decode) {
      forall i | 0 <= i < k ensures Accepts(r.segments[i], path[i], decode) {
        assert Accepts(s[i], p[i], decode);
      }
    }
  }

  /** The captured names are those of the pattern and no others. */
  lemma {:induction false} CapturedNames(pattern: seq<string>, path: seq<string>, decode: Decoder, name: string)
    requires |pattern| == |path|
    ensures name in Params(pattern, path, decode) <==>
            exists i :: 0 <= i < |pattern| && pattern[i] == ":" + name && decode(path[i]).Some?
    decreases |pattern|
  {
    var n := |pattern| - 1;
    if n >= 0 {
      CapturedNames(pattern[..n], path[..n], decode, name);
      assert Captures(pattern[n]) ==> pattern[n] == ":" + pattern[n][1..];
      assert (":" + name)[1..] == name;
    }
  }

  /** A captured name carries its decoded segment, unless a later capture has the same name. */
  lemma {:induction false} CapturesAreDecoded(pattern: seq<string>, path: seq<string>, decode: Decoder, i: nat)
    requires i < |pattern| == |path| && Captures(pattern[i]) && decode(path[i]).Some?
    requires forall j :: i < j < |pattern| && Captures(pattern[j]) ==> pattern[j] != pattern[i]
    ensures pattern[i][1..] in Params(pattern, path, decode)
    ensures Params(pattern, path, decode)[pattern[i][1..]] == decode(path[i]).value
    decreases |pattern|
  {
    var n := |pattern| - 1;
    if i < n {
      CapturesAreDecoded(pattern[..n], path[..n], decode, i);
      assert Captures(pattern[n]) ==> pattern[n] == ":" + pattern[n][1..];
      assert pattern[i] == ":" + pattern[i][1..];
    }
  }
}
