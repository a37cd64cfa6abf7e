/** The navigation routes: each screen's route template, with `{name}`
    placeholders, and the `createRoute` helpers that build a concrete route.
    Each helper is shown to be its template with the placeholders filled in. */
module Screen {
  import opened Common

  // ---------------------------------------------------------------------------
  // Route templates

  /** A `{name}` placeholder. */
  function Placeholder(name: string): string {
    "{" + name + "}"
  }

  const PostDetailsTemplate: string := "post_details_screen/" + Placeholder("postId")
  const PostSavesTemplate: string := "post_saves?filter=" + Placeholder("filter")
  const ProfileTemplate: string := "profile_screen?userId=" + Placeholder("userId")
  const ChatRoomTemplate: string := "chat_room_screen/" + Placeholder("roomId")
  const OtherProfileTemplate: string := "other_profile_screen/" + Placeholder("userId")
  const FollowTemplate: string :=
    "follow_screen" + "/" + Placeholder("userId") + "/" + Placeholder("username") + "/" + Placeholder("tabIndex")

  // ---------------------------------------------------------------------------
  // Filling a template

  /** The position of the first `}` in `s`, if any. */
  function IndexOfClose(s: string): (r: Option<nat>)
    ensures r.Some? ==> r.value < |s| && s[r.value] == '}' && '}' !in s[..r.value]
    ensures r.None? ==> '}' !in s
  {
    if s == [] then None
    else if s[0] == '}' then Some(0)
    else match IndexOfClose(s[1..])
      case None => None
      case Some(k) => assert s[..k + 1] == [s[0]] + s[1..][..k]; Some(k + 1)
  }

  /** A template with every `{name}` whose name `args` knows replaced by its
      value, in one left-to-right pass (a value is never scanned again). */
  function Instantiate(t: string, args: map<string, string>): string
    decreases |t|
  {
    if t == [] then []
    else if t[0] == '{' then
      match IndexOfClose(t[1..])
      case None => t
      case Some(k) =>
        var name := t[1..k + 1];
        (if name in args then args[name] else t[..k + 2]) + Instantiate(t[k + 2..], args)
    else [t[0]] + Instantiate(t[1..], args)
  }

  /** Literal text without `{` is copied as it is. */
  lemma {:induction false} InstantiateLiteral(p: string, rest: string, args: map<string, string>)
    requires '{' !in p
    ensures Instantiate(p + rest, args) == p + Instantiate(rest, args)
  {
    if p != [] {
      var t := p + rest;
      assert t[0] == p[0] && t[0] != '{';
      assert t[1..] == p[1..] + rest;
      assert '{' !in p[1..];
      calc {
        Instantiate(t, args);
        [t[0]] + Instantiate(t[1..], args);
        { InstantiateLiteral(p[1..], rest, args); }
        [p[0]] + (p[1..] + Instantiate(rest, args));
        { assert [p[0]] + p[1..] == p; }
        p + Instantiate(rest, args);
      }
    } else {
      assert p + rest == rest;
    }
  }

  /** A placeholder is replaced by its argument. */
  lemma InstantiateHole(name: string, rest: string, args: map<string, string>)
    requires '}' !in name && name in args
    ensures Instantiate(Placeholder(name) + rest, args) == args[name] + Instantiate(rest, args)
  {
    var t := Placeholder(name) + rest;
    assert t[0] == '{';
    assert t[1..] == name + "}" + rest;
    assert IndexOfClose(t[1..]) == Some(|name|) by {
      IndexOfCloseAfter(name, rest);
    }
    assert t[1..|name| + 1] == name;
    assert t[|name| + 2..] == rest;
  }

  lemma {:induction false} IndexOfCloseAfter(name: string, rest: string)
    requires '}' !in name
    ensures IndexOfClose(name + "}" + rest) == Some(|name|)
  {
    if name != [] {
      assert (name + "}" + rest)[1..] == name[1..] + "}" + rest;
      IndexOfCloseAfter(name[1..], rest);
    }
  }

  /** Literal text, a placeholder, then the rest of the template. */
  lemma FillNext(p: string, name: string, rest: string, args: map<string, string>)
    requires '{' !in p && '}' !in name && name in args
    ensures Instantiate(p + Placeholder(name) + rest, args) == p + args[name] + Instantiate(rest, args)
  {
    assert p + Placeholder(name) + rest == p + (Placeholder(name) + rest);
    InstantiateLiteral(p, Placeholder(name) + rest, args);
    InstantiateHole(name, rest, args);
  }

  /** A template of one placeholder after a literal prefix. */
  lemma FillOne(prefix: string, name: string, value: string)
    requires '{' !in prefix && '}' !in name
    ensures Instantiate(prefix + Placeholder(name), map[name := value]) == prefix + value
  {
    var args := map[name := value];
    assert prefix + Placeholder(name) == prefix + Placeholder(name) + "";
    FillNext(prefix, name, "", args);
  }

  /** A template of three placeholders separated by literal text. */
  lemma FillThree(p: string, n1: string, s1: string, n2: string, s2: string, n3: string, args: map<string, string>)
    requires '{' !in p && '{' !in s1 && '{' !in s2
    requires '}' !in n1 && '}' !in n2 && '}' !in n3
    requires n1 in args && n2 in args && n3 in args
    ensures Instantiate(p + Placeholder(n1) + s1 + Placeholder(n2) + s2 + Placeholder(n3), args) ==
      p + args[n1] + s1 + args[n2] + s2 + args[n3]
  {
    var r3 := s2 + Placeholder(n3);
    var r2 := s1 + Placeholder(n2) + r3;
    assert Instantiate(r3, args) == s2 + args[n3] by {
      assert r3 == s2 + Placeholder(n3) + "";
      FillNext(s2, n3, "", args);
    }
    assert Instantiate(r2, args) == s1 + args[n2] + (s2 + args[n3]) by {
      FillNext(s1, n2, r3, args);
    }
    assert p + Placeholder(n1) + s1 + Placeholder(n2) + s2 + Placeholder(n3) == p + Placeholder(n1) + r2;
    FillNext(p, n1, r2, args);
  }

  // ---------------------------------------------------------------------------
  // createRoute: each helper is its template with the placeholders filled in

  function PostDetailsRoute(postId: string): (r: string)
    ensures r == Instantiate(PostDetailsTemplate, map["postId" := postId])
  {
    FillOne("post_details_screen/", "postId", postId);
    "post_details_screen/" + postId
  }

  function PostSavesRoute(filter: string := "ALL"): (r: string)
    ensures r == Instantiate(PostSavesTemplate, map["filter" := filter])
  {
    FillOne("post_saves?filter=", "filter", filter);
    "post_saves?filter=" + filter
  }

  function ProfileRoute(userId: string): (r: string)
    ensures r == Instantiate(ProfileTemplate, map["userId" := userId])
  {
    FillOne("profile_screen?userId=", "userId", userId);
    "profile_screen?userId=" + userId
  }

  function ChatRoomRoute(roomId: string): (r: string)
    ensures r == Instantiate(ChatRoomTemplate, map["roomId" := roomId])
  {
    FillOne("chat_room_screen/", "roomId", roomId);
    "chat_room_screen/" + roomId
  }

  function OtherProfileRoute(userId: string): (r: string)
    ensures r == Instantiate(OtherProfileTemplate, map["userId" := userId])
  {
    FillOne("other_profile_screen/", "userId", userId);
    "other_profile_screen/" + userId
  }

  /** The follow route fills its three placeholders with the user id, the
      username and the tab index's decimal text. */
  function FollowRoute(userId: string, username: string, initialTabIndex: Int32): (r: string)
    ensures r == Instantiate(FollowTemplate,
                             map["userId" := userId, "username" := username, "tabIndex" := IntToString(initialTabIndex)])
  {
    var tabIndex := IntToString(initialTabIndex);
    var args := map["userId" := userId, "username" := username, "tabIndex" := tabIndex];
    assert args["userId"] == userId && args["username"] == username && args["tabIndex"] == tabIndex;
    FillThree("follow_screen" + "/", "userId", "/", "username", "/", "tabIndex", args);
    "follow_screen" + "/" + userId + "/" + username + "/" + tabIndex
  }

  /** The saved-posts route filters on "ALL" unless told otherwise. */
  lemma PostSavesDefaultFilter()
    ensures PostSavesRoute() == "post_saves?filter=ALL"
    ensures PostSavesRoute() == Instantiate(PostSavesTemplate, map["filter" := "ALL"])
  {
  }

  // ---------------------------------------------------------------------------
  // Reading a route back

  /** `s` cut at every `/`. */
  function Segments(s: string): (r: seq<string>)
    ensures |r| >= 1
    decreases |s|
  {
    if '/' !in s then [s]
    else
      var k := IndexOfSlash(s);
      [s[..k]] + Segments(s[k + 1..])
  }

  function IndexOfSlash(s: string): (k: nat)
    requires '/' in s
    ensures k < |s| && s[k] == '/' && '/' !in s[..k]
  {
    if s[0] == '/' then 0
    else
      var k := IndexOfSlash(s[1..]);
      assert s[..k + 1] == [s[0]] + s[1..][..k];
      k + 1
  }

  lemma {:induction false} SegmentsCons(a: string, b: string)
    requires '/' !in a
    ensures Segments(a + "/" + b) == [a] + Segments(b)
  {
    var s := a + "/" + b;
    assert s[|a|] == '/';
    var k := IndexOfSlash(s);
    assert forall j :: 0 <= j < |a| ==> s[j] == a[j] && s[j] != '/';
    assert forall j :: 0 <= j < k ==> s[..k][j] == s[j] && s[j] != '/';
    assert k == |a|;
    assert s[..k] == a;
    assert s[k + 1..] == b;
  }

  /** No number's decimal text holds a `/`. */
  lemma IntToStringHasNoSlash(i: int)
    ensures '/' !in IntToString(i)
  {
    var t := IntToString(i);
    if i < 0 {
      assert forall j :: 1 <= j < |t| ==> t[j] == t[1..][j - 1];
    }
    assert forall j :: 0 <= j < |t| ==> t[j] != '/';
  }

  /** Four slash-free parts joined by `/` split back into those parts. */
  lemma SegmentsOfFour(a: string, b: string, c: string, d: string)
    requires '/' !in a && '/' !in b && '/' !in c && '/' !in d
    ensures Segments(a + "/" + (b + "/" + (c + "/" + d))) == [a, b, c, d]
  {
    SegmentsCons(a, b + "/" + (c + "/" + d));
    SegmentsCons(b, c + "/" + d);
    SegmentsCons(c, d);
  }

  /** The follow route splits back into its screen name and its three
      arguments whenever the user id and the user name hold no `/`. */
  lemma FollowRouteSegments(userId: string, username: string, tab: Int32)
    requires '/' !in userId && '/' !in username
    ensures Segments(FollowRoute(userId, username, tab)) == ["follow_screen", userId, username, IntToString(tab)]
  {
    IntToStringHasNoSlash(tab);
    FollowPathSegments(userId, username, IntToString(tab));
  }

  lemma FollowPathSegments(userId: string, username: string, tabIndex: string)
    requires '/' !in userId && '/' !in username && '/' !in tabIndex
    ensures Segments("follow_screen" + "/" + userId + "/" + username + "/" + tabIndex) ==
      ["follow_screen", userId, username, tabIndex]
  {
    var route := "follow_screen" + "/" + (userId + "/" + (username + "/" + tabIndex));
    assert "follow_screen" + "/" + userId + "/" + username + "/" + tabIndex == route;
    SegmentsOfFour("follow_screen", userId, username, tabIndex);
  }
}
