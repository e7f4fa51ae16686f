/** The Redis key layout and the listing of queues from scanned keys. */
module Keys {

  function StreamKey(prefix: string, queue: string): string {
    prefix + ":" + queue + ":stream"
  }

  function GroupKey(prefix: string, queue: string): string {
    prefix + ":" + queue + ":group"
  }

  function DlqKey(prefix: string, queue: string): string {
    prefix + ":" + queue + ":dlq"
  }

  /** One of the characters A-Z a-z 0-9 _ . - */
  predicate Safe(c: char) {
    'A' <= c <= 'Z' || 'a' <= c <= 'z' || '0' <= c <= '9' || c == '_' || c == '.' || c == '-'
  }

  /** What the API accepts as a queue name or a kind. */
  predicate ValidIdentifier(s: string) {
    1 <= |s| <= 100 && forall i :: 0 <= i < |s| ==> Safe(s[i])
  }

  /** The layout, written out for one queue. */
  lemma KeyLayout()
    ensures StreamKey("relayq", "emails") == "relayq:emails:stream"
    ensures GroupKey("relayq", "emails") == "relayq:emails:group"
    ensures DlqKey("relayq", "emails") == "relayq:emails:dlq"
  {
  }

  /** Streams, groups and dead-letter streams of one deployment never collide, whatever the names. */
  lemma KeysNeverCollide(prefix: string, q: string, r: string)
    ensures StreamKey(prefix, q) == StreamKey(prefix, r) ==> q == r
    ensures GroupKey(prefix, q) == GroupKey(prefix, r) ==> q == r
    ensures DlqKey(prefix, q) == DlqKey(prefix, r) ==> q == r
    ensures StreamKey(prefix, q) != GroupKey(prefix, r)
    ensures StreamKey(prefix, q) != DlqKey(prefix, r)
    ensures GroupKey(prefix, q) != DlqKey(prefix, r)
  {
    MiddleRecovered(prefix, q, ":stream");
    MiddleRecovered(prefix, r, ":stream");
    MiddleRecovered(prefix, q, ":group");
    MiddleRecovered(prefix, r, ":group");
    MiddleRecovered(prefix, q, ":dlq");
    MiddleRecovered(prefix, r, ":dlq");
    assert Last(StreamKey(prefix, q)) == 'm' && Last(GroupKey(prefix, q)) == 'p';
    assert Last(GroupKey(prefix, r)) == 'p' && Last(DlqKey(prefix, r)) == 'q';
  }

  function Last(s: string): char
    requires s != ""
  {
    s[|s| - 1]
  }

  lemma MiddleRecovered(prefix: string, q: string, suffix: string)
    ensures var key := prefix + ":" + q + suffix;
            |key| == |prefix| + 1 + |q| + |suffix| && key[|prefix| + 1..|key| - |suffix|] == q
  {
  }

  // -- splitting a key ----------------------------------------------------------

  /** One more character in front of text that splits into `parts`. */
  function InFront(c: char, parts: seq<string>): (more: seq<string>)
    requires |parts| >= 1
    ensures |more| >= 1
  {
    if c == ':' then [""] + parts else [[c] + parts[0]] + parts[1..]
  }

  /** str.split(":"): the pieces between colons. */
  function Split(s: string): (parts: seq<string>)
    ensures |parts| >= 1
  {
    if s == "" then [""] else InFront(s[0], Split(s[1..]))
  }

  predicate NoColon(s: string) {
    ':' !in s
  }

  lemma InFrontOfBoth(c: char, x: seq<string>, y: seq<string>)
    requires |x| >= 1
    ensures InFront(c, x + y) == InFront(c, x) + y
  {
  }

  lemma {:induction false} SplitJoined(a: string, b: string)
    ensures Split(a + ":" + b) == Split(a) + Split(b)
  {
    var all := a + ":" + b;
    if a == "" {
      assert all == ":" + b && all[1..] == b;
    } else {
      SplitJoined(a[1..], b);
      assert all[1..] == a[1..] + ":" + b;
      InFrontOfBoth(a[0], Split(a[1..]), Split(b));
    }
  }

  lemma {:induction false} SplitPieces(s: string)
    ensures forall p :: p in Split(s) ==> NoColon(p)
    ensures NoColon(s) ==> Split(s) == [s]
    ensures !NoColon(s) ==> |Split(s)| >= 2
  {
    if s != "" {
      SplitPieces(s[1..]);
      var rest := Split(s[1..]);
      assert rest[0] in rest && s == [s[0]] + s[1..];
      forall p | p in Split(s) ensures NoColon(p) {
        if s[0] == ':' {
          assert p == "" || p in rest;
        } else {
          assert p == [s[0]] + rest[0] || p in rest;
        }
      }
    }
  }

  /** The name the listing reads off a queue's stream key. */
  function Listed(prefix: string, q: string): string
  {
    StreamKeyPieces(prefix, q);
    Split(StreamKey(prefix, q))[1]
  }

  lemma StreamKeyPieces(prefix: string, q: string)
    ensures Split(StreamKey(prefix, q)) == Split(prefix) + Split(q) + Split("stream")
    ensures |Split(StreamKey(prefix, q))| >= 3
  {
    hide Split;
    var rest := q + ":" + "stream";
    assert StreamKey(prefix, q) == prefix + ":" + rest;
    SplitJoined(prefix, rest);
    SplitJoined(q, "stream");
  }

  /** Splitting a stream key recovers its queue if and only if neither prefix nor name has a colon, or the
      prefix has one and the queue happens to be called like the prefix's second piece. */
  lemma StreamKeySplits(prefix: string, q: string)
    ensures NoColon(Listed(prefix, q))
    ensures NoColon(prefix) ==> (Listed(prefix, q) == q <==> NoColon(q))
    ensures !NoColon(prefix) ==> |Split(prefix)| >= 2 && Listed(prefix, q) == Split(prefix)[1]
  {
    StreamKeyPieces(prefix, q);
    SplitPieces(prefix);
    SplitPieces(q);
    SplitPieces(StreamKey(prefix, q));
    assert Listed(prefix, q) in Split(StreamKey(prefix, q));
    if NoColon(prefix) {
      assert Listed(prefix, q) == Split(q)[0];
    }
  }

  lemma NameIsSafe(q: string)
    requires ValidIdentifier(q)
    ensures NoColon(q)
  {
  }

  /** What all queues of a deployment are listed as. */
  ghost predicate ListedAlike(prefix: string) {
    if NoColon(prefix) then
      forall q :: NoColon(Listed(prefix, q)) && (Listed(prefix, q) == q <==> NoColon(q))
    else
      forall q :: Listed(prefix, q) == Listed(prefix, "")
  }

  lemma AllListedAlike(prefix: string)
    ensures ListedAlike(prefix)
  {
    hide Listed, Split, StreamKey;
    forall q: string
      ensures NoColon(Listed(prefix, q))
      ensures NoColon(prefix) ==> (Listed(prefix, q) == q <==> NoColon(q))
      ensures !NoColon(prefix) ==> Listed(prefix, q) == Listed(prefix, "")
    {
      StreamKeySplits(prefix, q);
      StreamKeySplits(prefix, "");
    }
  }

  /** Every name the API accepts is recovered if and only if the prefix has no colon. */
  lemma ValidNamesSplit(prefix: string)
    ensures (forall q :: ValidIdentifier(q) ==> Listed(prefix, q) == q) <==> NoColon(prefix)
  {
    hide Listed, Split, StreamKey;
    AllListedAlike(prefix);
    if NoColon(prefix) {
      forall q | ValidIdentifier(q) ensures Listed(prefix, q) == q {
        NameIsSafe(q);
      }
    } else {
      assert ValidIdentifier("a") && ValidIdentifier("b");
      assert Listed(prefix, "a") == Listed(prefix, "b");
    }
  }

  /** The listing of a set of queues. */
  ghost predicate Lists(prefix: string, live: set<string>, name: string) {
    exists q :: q in live && Listed(prefix, q) == name
  }

  /** The listing is exact if and only if neither the prefix nor any name has a colon, or the prefix has
      one and there is nothing to list but the queue called like the prefix's second piece. */
  lemma ListingExactIff(prefix: string, live: set<string>)
    ensures (forall name :: Lists(prefix, live, name) <==> name in live) <==>
            if NoColon(prefix) then forall q :: q in live ==> NoColon(q) else live <= {Listed(prefix, "")}
  {
    hide Listed, Split, StreamKey, NoColon;
    AllListedAlike(prefix);
    forall q | q in live ensures Lists(prefix, live, Listed(prefix, q)) {
    }
  }

  // -- listing queues -----------------------------------------------------------

  /** Code-point order on strings, as `sorted` uses. */
  predicate Less(a: string, b: string) {
    b != "" && (a == "" || a[0] < b[0] || (a[0] == b[0] && Less(a[1..], b[1..])))
  }

  lemma {:induction false} LessTransitive(a: string, b: string, c: string)
    requires Less(a, b) && Less(b, c)
    ensures Less(a, c)
  {
    if a != "" && a[0] == b[0] && b[0] == c[0] {
      LessTransitive(a[1..], b[1..], c[1..]);
    }
  }

  lemma {:induction false} LessTotal(a: string, b: string)
    ensures a == b || Less(a, b) || Less(b, a)
  {
    if a != "" && b != "" && a[0] == b[0] {
      LessTotal(a[1..], b[1..]);
      assert a == [a[0]] + a[1..] && b == [b[0]] + b[1..];
    }
  }

  /** At the first place where they differ, `a` has the smaller character or ends. */
  ghost predicate Before(a: string, b: string) {
    exists k: nat :: k <= |a| && k < |b| && a[..k] == b[..k] && (k == |a| || a[k] < b[k])
  }

  lemma {:induction false} LessMeans(a: string, b: string)
    ensures Less(a, b) <==> Before(a, b)
  {
    if a == "" || b == "" {
      assert a[..0] == b[..0];
    } else {
      LessMeans(a[1..], b[1..]);
      if k: nat :| k <= |a| && k < |b| && a[..k] == b[..k] && (k == |a| || a[k] < b[k]) {
        if k > 0 {
          assert a[0] == a[..k][0] && b[0] == b[..k][0];
          assert a[1..][..k - 1] == a[..k][1..] && b[1..][..k - 1] == b[..k][1..];
        }
      }
      if Less(a, b) && a[0] == b[0] {
        var k: nat :| k < |a| && k + 1 < |b| && a[1..][..k] == b[1..][..k] && (k + 1 == |a| || a[1..][k] < b[1..][k]);
        assert a[..k + 1] == [a[0]] + a[1..][..k] && b[..k + 1] == [b[0]] + b[1..][..k];
      } else if Less(a, b) {
        assert a[..0] == b[..0];
      }
    }
  }

  predicate Sorted(names: seq<string>) {
    forall i, j :: 0 <= i < j < |names| ==> Less(names[i], names[j])
  }

  /** The names in a sorted list, with one more put in its place. */
  method InsertSorted(names: seq<string>, name: string) returns (more: seq<string>)
    requires Sorted(names) && name !in names
    ensures Sorted(more)
    ensures forall x :: x in more <==> x in names || x == name
  {
    var k := 0;
    while k < |names| && Less(names[k], name)
      invariant 0 <= k <= |names|
      invariant forall i :: 0 <= i < k ==> Less(names[i], name)
    {
      k := k + 1;
    }
    if k < |names| {
      LessTotal(names[k], name);
      forall i | k < i < |names| ensures Less(name, names[i]) {
        LessTransitive(name, names[k], names[i]);
      }
    }
    forall i, j | 0 <= i < k <= j < |names| ensures Less(names[i], names[j]) {
    }
    more := names[..k] + [name] + names[k..];
    assert names == names[..k] + names[k..];
  }

  /** sorted() over a set. */
  method SortNames(queues: set<string>) returns (names: seq<string>)
    ensures Sorted(names) && forall i, j :: 0 <= i < j < |names| ==> Before(names[i], names[j])
    ensures forall q :: q in names <==> q in queues
  {
    names := [];
    var rest := queues;
    while rest != {}
      invariant Sorted(names) && rest <= queues
      invariant forall q :: q in names <==> q in queues - rest
      decreases rest
    {
      var q :| q in rest;
      names := InsertSorted(names, q);
      rest := rest - {q};
    }
    forall i, j | 0 <= i < j < |names| ensures Before(names[i], names[j]) {
      LessMeans(names[i], names[j]);
    }
  }

  ghost predicate ScannedFrom(prefix: string, live: set<string>, key: string) {
    exists q :: q in live && key == StreamKey(prefix, q)
  }

  ghost predicate Returned(batches: seq<seq<string>>, key: string) {
    exists b :: 0 <= b < |batches| && key in batches[b]
  }

  /** Every queue whose stream key turns up in some batch of the scan, and nothing else, in order, under
      the name its key splits into.  A scan may return a key more than once; `batches` is what it
      returned until its cursor came back to 0, over a set of keys that did not change meanwhile. */
  method ListQueues(prefix: string, ghost live: set<string>, batches: seq<seq<string>>) returns (names: seq<string>)
    requires forall b, k :: 0 <= b < |batches| && 0 <= k < |batches[b]| ==> ScannedFrom(prefix, live, batches[b][k])
    requires forall q :: q in live ==> Returned(batches, StreamKey(prefix, q))
    ensures Sorted(names) && forall i, j :: 0 <= i < j < |names| ==> Before(names[i], names[j])
    ensures forall name :: name in names <==> Lists(prefix, live, name)
  {
    var queues: set<string> := {};
    var b := 0;
    while b < |batches|
      invariant 0 <= b <= |batches|
      invariant forall name :: name in queues ==> Lists(prefix, live, name)
      invariant forall q :: q in live && Returned(batches[..b], StreamKey(prefix, q)) ==> Listed(prefix, q) in queues
    {
      var found := QueuesIn(prefix, live, batches[b]);
      forall q | q in live && Returned(batches[..b + 1], StreamKey(prefix, q))
        ensures Listed(prefix, q) in queues + found
      {
        var c :| 0 <= c < b + 1 && StreamKey(prefix, q) in batches[..b + 1][c];
        if c < b {
          assert batches[..b][c] == batches[..b + 1][c];
          assert Returned(batches[..b], StreamKey(prefix, q));
        }
      }
      queues := queues + found;
      b := b + 1;
    }
    assert batches[..|batches|] == batches;
    names := SortNames(queues);
  }

  /** The names in one batch of scanned keys. */
  method QueuesIn(prefix: string, ghost live: set<string>, keys: seq<string>) returns (queues: set<string>)
    requires forall k :: 0 <= k < |keys| ==> ScannedFrom(prefix, live, keys[k])
    ensures forall q :: q in live && StreamKey(prefix, q) in keys ==> Listed(prefix, q) in queues
    ensures forall name :: name in queues ==>
              exists q :: q in live && StreamKey(prefix, q) in keys && Listed(prefix, q) == name
  {
    hide Split, StreamKey;
    queues := {};
    for k := 0 to |keys|
      invariant forall q :: q in live && StreamKey(prefix, q) in keys[..k] ==> Listed(prefix, q) in queues
      invariant forall name :: name in queues ==>
                  exists q :: q in live && StreamKey(prefix, q) in keys && Listed(prefix, q) == name
    {
      assert ScannedFrom(prefix, live, keys[k]);
      ghost var source :| source in live && keys[k] == StreamKey(prefix, source);
      StreamKeyPieces(prefix, source);
      var parts := Split(keys[k]);
      assert parts[1] == Listed(prefix, source);
      if |parts| >= 3 {
        queues := queues + {parts[1]};
      }
      forall q | q in live && StreamKey(prefix, q) == keys[k] ensures q == source {
        KeysNeverCollide(prefix, q, source);
      }
    }
    assert keys[..|keys|] == keys;
  }
}
