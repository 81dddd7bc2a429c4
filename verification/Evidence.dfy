/**
 * The bounded evidence scan (loop.py, _evidence): an explicit stack walks a tool's
 * output within an item and a character budget, then one line and a tone are picked.
 */
module Evidence {
  import opened Sequences

  datatype Json =
    | Null
    | Leaf(text: string)
    | Array(items: seq<Json>)
    | Dict(entries: seq<Entry>)

  datatype Entry = Entry(name: string, value: Json)

  /** A value and the key it was reached under. */
  datatype Node = Node(value: Json, key: string)

  datatype Chunk = Chunk(key: string, text: string)

  datatype Tone = Destructive | Warning | Success

  function Reversed<T>(s: seq<T>): (r: seq<T>)
    ensures |r| == |s|
    ensures forall i :: 0 <= i < |s| ==> r[i] == s[|s| - 1 - i]
  {
    seq(|s|, i requires 0 <= i < |s| => s[|s| - 1 - i])
  }

  // ---------------------------------------------------------------- the recursive reading

  /** The whole payload in recursive pre-order. */
  function Preorder(value: Json, key: string): seq<Node>
    decreases value
  {
    [Node(value, key)] +
    match value
    case Array(items) => PreorderItems(items, key)
    case Dict(entries) => PreorderEntries(entries)
    case _ => []
  }

  function PreorderItems(items: seq<Json>, key: string): seq<Node>
    decreases items
  {
    if items == [] then [] else Preorder(items[0], key) + PreorderItems(items[1..], key)
  }

  function PreorderEntries(entries: seq<Entry>): seq<Node>
    decreases entries
  {
    if entries == [] then [] else Preorder(entries[0].value, entries[0].name) + PreorderEntries(entries[1..])
  }

  /** Text of the leaves among some nodes, in order. */
  function Leaves(nodes: seq<Node>): seq<Chunk> {
    if nodes == [] then []
    else (if nodes[0].value.Leaf? then [Chunk(nodes[0].key, nodes[0].value.text)] else []) + Leaves(nodes[1..])
  }

  /** Chunks until a character budget is spent, the last one cut to fit. */
  function Cut(chunks: seq<Chunk>, budget: int): seq<Chunk> {
    if chunks == [] || budget <= 0 then []
    else
      var text := FirstN(chunks[0].text, budget);
      [Chunk(chunks[0].key, text)] + Cut(chunks[1..], budget - |text|)
  }

  /** What the scan may look at: leaves of the first maxItems nodes, within maxChars. */
  function InBudget(output: Json, maxItems: int, maxChars: int): seq<Chunk> {
    Cut(Leaves(FirstN(Preorder(output, ""), maxItems)), maxChars)
  }

  function Concat(chunks: seq<Chunk>): string {
    if chunks == [] then "" else chunks[0].text + Concat(chunks[1..])
  }

  /** The collected text is the beginning of the leaves' text, within the budget. */
  lemma {:induction false} CutIsPrefix(chunks: seq<Chunk>, budget: int)
    ensures Concat(Cut(chunks, budget)) == FirstN(Concat(chunks), budget)
    ensures |Concat(Cut(chunks, budget))| <= Max(budget, 0)
  {
    if chunks != [] && budget > 0 {
      var text := FirstN(chunks[0].text, budget);
      CutIsPrefix(chunks[1..], budget - |text|);
      var cut := Cut(chunks, budget);
      assert cut[1..] == Cut(chunks[1..], budget - |text|);
      assert Concat(cut) == text + Concat(cut[1..]);
    }
  }

  // ---------------------------------------------------------------- the stack against it

  function Children(n: Node): seq<Node> {
    match n.value
    case Array(items) => Map(items, item => Node(item, n.key))
    case Dict(entries) => Map(entries, (entry: Entry) => Node(entry.value, entry.name))
    case _ => []
  }

  /** Pre-order of a work list. */
  function PreorderAll(work: seq<Node>): seq<Node> {
    if work == [] then [] else Preorder(work[0].value, work[0].key) + PreorderAll(work[1..])
  }

  lemma {:induction false} PreorderAllConcat(a: seq<Node>, b: seq<Node>)
    ensures PreorderAll(a + b) == PreorderAll(a) + PreorderAll(b)
  {
    if a == [] {
      assert a + b == b;
    } else {
      assert (a + b)[1..] == a[1..] + b;
      PreorderAllConcat(a[1..], b);
    }
  }

  lemma {:induction false} PreorderAtLeast(work: seq<Node>)
    ensures |PreorderAll(work)| >= |work|
  {
    if work != [] {
      PreorderAtLeast(work[1..]);
    }
  }

  lemma {:induction false} ItemsAreChildren(items: seq<Json>, key: string)
    ensures PreorderItems(items, key) == PreorderAll(Map(items, item => Node(item, key)))
  {
    if items != [] {
      ItemsAreChildren(items[1..], key);
      var nodes := Map(items, item => Node(item, key));
      assert nodes[1..] == Map(items[1..], item => Node(item, key));
    }
  }

  lemma {:induction false} EntriesAreChildren(entries: seq<Entry>)
    ensures PreorderEntries(entries) == PreorderAll(Map(entries, (entry: Entry) => Node(entry.value, entry.name)))
  {
    if entries != [] {
      EntriesAreChildren(entries[1..]);
      var nodes := Map(entries, (entry: Entry) => Node(entry.value, entry.name));
      assert nodes[1..] == Map(entries[1..], (entry: Entry) => Node(entry.value, entry.name));
    }
  }

  lemma PreorderIsChildren(n: Node)
    ensures Preorder(n.value, n.key) == [n] + PreorderAll(Children(n))
  {
    match n.value
    case Array(items) => ItemsAreChildren(items, n.key);
    case Dict(entries) => EntriesAreChildren(entries);
    case _ =>
  }

  /** Pushing only as many children as items remain changes nothing that will be visited. */
  lemma TruncationIsInvisible(children: seq<Node>, rest: seq<Node>, remaining: int)
    requires remaining >= 0
    ensures FirstN(PreorderAll(FirstN(children, remaining) + rest), remaining)
         == FirstN(PreorderAll(children + rest), remaining)
  {
    if |children| > remaining {
      var kept, dropped := children[..remaining], children[remaining..];
      PreorderAtLeast(kept);
      PreorderAllConcat(kept, rest);
      PreorderAllConcat(kept, dropped + rest);
      assert children + rest == kept + (dropped + rest);
      assert remaining == 0 ==> FirstN(children, remaining) == [];
      assert FirstN(children, remaining) == kept;
    } else {
      assert FirstN(children, remaining) == children;
    }
  }

  lemma FirstNCons<T>(head: T, tail: seq<T>, n: int)
    requires n > 0
    ensures FirstN([head] + tail, n) == [head] + FirstN(tail, n - 1)
  {}

  lemma Reassociate(whole: seq<Node>, first: seq<Node>, head: Node, below: seq<Node>, after: seq<Node>, joined: seq<Node>)
    requires whole == first + after && first == [head] + below && joined == below + after
    ensures whole == [head] + joined
  {}

  lemma UnfoldHead(work: seq<Node>, children: seq<Node>)
    requires work != [] && children == Children(work[0])
    ensures PreorderAll(work) == [work[0]] + PreorderAll(children + work[1..])
  {
    PreorderIsChildren(work[0]);
    PreorderAllConcat(children, work[1..]);
    Reassociate(PreorderAll(work), Preorder(work[0].value, work[0].key), work[0], PreorderAll(children),
      PreorderAll(work[1..]), PreorderAll(children + work[1..]));
  }

  /** One pop: the node comes first, and its (truncated) children and the rest of the
      stack supply exactly the nodes that followed it. */
  lemma PopStep(work: seq<Node>, remaining: int)
    requires work != [] && remaining > 0
    ensures FirstN(PreorderAll(work), remaining)
         == [work[0]] + FirstN(PreorderAll(FirstN(Children(work[0]), remaining - 1) + work[1..]), remaining - 1)
  {
    var children, rest := Children(work[0]), work[1..];
    UnfoldHead(work, children);
    FirstNCons(work[0], PreorderAll(children + rest), remaining);
    TruncationIsInvisible(children, rest, remaining - 1);
  }

  lemma PushReversed(stack: seq<Node>, children: seq<Node>)
    requires stack != []
    ensures Reversed(stack)[0] == stack[|stack| - 1]
    ensures Reversed(stack[..|stack| - 1] + Reversed(children)) == children + Reversed(stack)[1..]
  {}

  lemma CutStep(n: Node, rest: seq<Node>, budget: int)
    ensures Leaves([n] + rest) == (if n.value.Leaf? then [Chunk(n.key, n.value.text)] else []) + Leaves(rest)
    ensures !n.value.Leaf? ==> Cut(Leaves([n] + rest), budget) == Cut(Leaves(rest), budget)
    ensures n.value.Leaf? && budget > 0 ==>
              Cut(Leaves([n] + rest), budget)
              == [Chunk(n.key, FirstN(n.value.text, budget))] + Cut(Leaves(rest), budget - |FirstN(n.value.text, budget)|)
    ensures budget <= 0 ==> Cut(Leaves([n] + rest), budget) == []
  {
    assert ([n] + rest)[1..] == rest;
    var leaves := Leaves([n] + rest);
    if !n.value.Leaf? {
      assert leaves == [] + Leaves(rest) == Leaves(rest);
    } else {
      assert leaves[0] == Chunk(n.key, n.value.text) && leaves[1..] == Leaves(rest);
    }
  }

  // ---------------------------------------------------------------- lines and tone

  /** The text rules the scan is given: splitting into trimmed non-empty lines, the keys
      that report an outcome, and the needle test. */
  datatype TextRules = TextRules(lines: string -> seq<string>, reports: string -> bool, needle: string -> bool)

  function Values(rules: TextRules, chunks: seq<Chunk>): seq<string> {
    if chunks == [] then [] else rules.lines(chunks[0].text) + Values(rules, chunks[1..])
  }

  function Reported(rules: TextRules, chunks: seq<Chunk>): seq<string> {
    if chunks == [] then []
    else (if rules.reports(chunks[0].key) then rules.lines(chunks[0].text) else []) + Reported(rules, chunks[1..])
  }

  lemma {:induction false} AppendChunk(rules: TextRules, chunks: seq<Chunk>, c: Chunk)
    ensures Values(rules, chunks + [c]) == Values(rules, chunks) + rules.lines(c.text)
    ensures Reported(rules, chunks + [c])
         == Reported(rules, chunks) + if rules.reports(c.key) then rules.lines(c.text) else []
  {
    if chunks == [] {
      assert chunks + [c] == [c];
    } else {
      assert (chunks + [c])[1..] == chunks[1..] + [c];
      AppendChunk(rules, chunks[1..], c);
    }
  }

  /** The first longest string, as Python's max(..., key=len) returns it. */
  function Longest(s: seq<string>): (r: string)
    requires s != []
    ensures r in s && forall x :: x in s ==> |x| <= |r|
  {
    if |s| == 1 then s[0]
    else
      var rest := Longest(s[1..]);
      if |s[0]| >= |rest| then s[0] else rest
  }

  ghost predicate LongestMatch(rules: TextRules, reported: seq<string>, x: string) {
    x in reported && rules.needle(x) && forall y :: y in reported && rules.needle(y) ==> |y| <= |x|
  }

  /** What the scan promises about its answer, given what it was allowed to look at. */
  ghost predicate Answers(rules: TextRules, chunks: seq<Chunk>, line: Option<string>, tone: Tone) {
    var values, reported := Values(rules, chunks), Reported(rules, chunks);
    && (tone == Destructive <==> exists x :: x in reported && rules.needle(x))
    && (tone == Destructive ==> line.Some? && exists x :: LongestMatch(rules, reported, x) && line.value == FirstN(x, 1000))
    && (tone == Warning ==> exists x :: x in values && rules.needle(x))
    && (tone == Success ==> forall x :: x in values ==> !rules.needle(x))
    && (tone != Destructive ==> line == if values == [] then None else Some(FirstN(values[0], 1000)))
  }

  /** Nodes the stack still supplies within the item budget. */
  function Ahead(stack: seq<Node>, remaining: int): seq<Node> {
    FirstN(PreorderAll(Reversed(stack)), remaining)
  }

  lemma StackStep(stack: seq<Node>, remaining: int, node: Node, next: seq<Node>)
    requires stack != [] && remaining > 0 && node == stack[|stack| - 1]
    requires next == stack[..|stack| - 1] + Reversed(FirstN(Children(node), remaining - 1))
    ensures Ahead(stack, remaining) == [node] + Ahead(next, remaining - 1)
  {
    PopStep(Reversed(stack), remaining);
    PushReversed(stack, FirstN(Children(node), remaining - 1));
  }

  /** The scan so far: visited nodes and those ahead make up the whole reading; collected
      chunks and what those ahead still allow make up the answer. */
  ghost predicate ScanInv(whole: seq<Node>, allowed: seq<Chunk>, ahead: seq<Node>, maxChars: int,
                          scannedChars: int, visited: seq<Node>, chunks: seq<Chunk>)
  {
    && visited + ahead == whole
    && chunks + Cut(Leaves(ahead), maxChars - scannedChars) == allowed
    && scannedChars == |Concat(chunks)|
  }

  lemma VisitStep(whole: seq<Node>, allowed: seq<Chunk>, node: Node, rest: seq<Node>, maxChars: int,
                  scannedChars: int, visited: seq<Node>, chunks: seq<Chunk>)
    requires ScanInv(whole, allowed, [node] + rest, maxChars, scannedChars, visited, chunks)
    requires !node.value.Leaf?
    ensures ScanInv(whole, allowed, rest, maxChars, scannedChars, visited + [node], chunks)
  {
    CutStep(node, rest, maxChars - scannedChars);
    assert visited + ([node] + rest) == (visited + [node]) + rest;
  }

  /** A leaf without character budget ends the scan. */
  lemma BudgetSpent(whole: seq<Node>, allowed: seq<Chunk>, node: Node, rest: seq<Node>, maxChars: int,
                    scannedChars: int, visited: seq<Node>, chunks: seq<Chunk>)
    requires ScanInv(whole, allowed, [node] + rest, maxChars, scannedChars, visited, chunks)
    requires node.value.Leaf? && maxChars <= scannedChars && |Concat(allowed)| <= Max(maxChars, 0)
    ensures chunks == allowed && |Concat(allowed)| == Max(maxChars, 0)
    ensures visited + [node] <= whole
  {
    CutStep(node, rest, maxChars - scannedChars);
    assert chunks + [] == chunks;
    assert visited + ([node] + rest) == (visited + [node]) + rest;
  }

  lemma CollectStep(whole: seq<Node>, allowed: seq<Chunk>, node: Node, rest: seq<Node>, maxChars: int,
                    scannedChars: int, visited: seq<Node>, chunks: seq<Chunk>, text: string)
    requires ScanInv(whole, allowed, [node] + rest, maxChars, scannedChars, visited, chunks)
    requires node.value.Leaf? && maxChars > scannedChars && text == FirstN(node.value.text, maxChars - scannedChars)
    ensures ScanInv(whole, allowed, rest, maxChars, scannedChars + |text|, visited + [node], chunks + [Chunk(node.key, text)])
  {
    CutStep(node, rest, maxChars - scannedChars);
    assert visited + ([node] + rest) == (visited + [node]) + rest;
    var c := Chunk(node.key, text);
    ConcatAppend(chunks, c);
    var more := Cut(Leaves(rest), maxChars - scannedChars - |text|);
    assert chunks + ([c] + more) == (chunks + [c]) + more;
  }

  /** Takes the top of the stack and pushes its children, as many as items remain. */
  method Pop(stack: seq<Node>, remainingItems: int) returns (node: Node, next: seq<Node>)
    requires stack != [] && remainingItems >= 0
    ensures Ahead(stack, remainingItems + 1) == [node] + Ahead(next, remainingItems)
  {
    node := stack[|stack| - 1];
    next := stack[..|stack| - 1] + Reversed(FirstN(Children(node), remainingItems));
    StackStep(stack, remainingItems + 1, node, next);
  }

  /** Splits a collected text into lines. */
  method Collect(rules: TextRules, c: Chunk, values0: seq<string>, reported0: seq<string>, ghost chunks: seq<Chunk>)
    returns (values: seq<string>, reported: seq<string>)
    requires values0 == Values(rules, chunks) && reported0 == Reported(rules, chunks)
    ensures values == Values(rules, chunks + [c]) && reported == Reported(rules, chunks + [c])
  {
    AppendChunk(rules, chunks, c);
    values := values0 + rules.lines(c.text);
    reported := reported0 + if rules.reports(c.key) then rules.lines(c.text) else [];
  }

  /** The walk: an explicit stack, popped from its end. `whole` is what it may visit and
      `allowed` what it may collect. */
  method Walk(root: Node, maxItems: int, maxChars: int, rules: TextRules, ghost whole: seq<Node>, ghost allowed: seq<Chunk>)
    returns (values: seq<string>, reported: seq<string>, ghost visited: seq<Node>)
    requires ScanInv(whole, allowed, Ahead([root], maxItems), maxChars, 0, [], []) && |Concat(allowed)| <= Max(maxChars, 0)
    ensures visited <= whole && (visited == whole || |Concat(allowed)| == Max(maxChars, 0))
    ensures values == Values(rules, allowed) && reported == Reported(rules, allowed)
  {
    values, reported := [], [];
    var stack := [root];
    var scannedItems, scannedChars := 0, 0;
    ghost var chunks: seq<Chunk> := [];
    visited := [];
    while stack != [] && scannedItems < maxItems
      invariant scannedItems >= 0
      invariant ScanInv(whole, allowed, Ahead(stack, maxItems - scannedItems), maxChars, scannedChars, visited, chunks)
      invariant values == Values(rules, chunks) && reported == Reported(rules, chunks)
      decreases maxItems - scannedItems
    {
      scannedItems := scannedItems + 1;
      var remainingItems := maxItems - scannedItems;
      var node;
      node, stack := Pop(stack, remainingItems);
      if node.value.Leaf? {
        var remaining := maxChars - scannedChars;
        if remaining <= 0 {
          BudgetSpent(whole, allowed, node, Ahead(stack, remainingItems), maxChars, scannedChars, visited, chunks);
          visited := visited + [node];
          return;
        }
        var text := FirstN(node.value.text, remaining);
        CollectStep(whole, allowed, node, Ahead(stack, remainingItems), maxChars, scannedChars, visited, chunks, text);
        scannedChars := scannedChars + |text|;
        values, reported := Collect(rules, Chunk(node.key, text), values, reported, chunks);
        chunks := chunks + [Chunk(node.key, text)];
      } else {
        VisitStep(whole, allowed, node, Ahead(stack, remainingItems), maxChars, scannedChars, visited, chunks);
      }
      visited := visited + [node];
    }
    ScanDone(whole, allowed, Ahead(stack, maxItems - scannedItems), maxChars, scannedChars, visited, chunks);
  }

  method Scan(output: Json, maxItems: int, maxChars: int, rules: TextRules)
    returns (values: seq<string>, reported: seq<string>, ghost visited: seq<Node>)
    ensures visited <= FirstN(Preorder(output, ""), maxItems)
    ensures visited == FirstN(Preorder(output, ""), maxItems)
            || |Concat(InBudget(output, maxItems, maxChars))| == Max(maxChars, 0)
    ensures values == Values(rules, InBudget(output, maxItems, maxChars))
    ensures reported == Reported(rules, InBudget(output, maxItems, maxChars))
  {
    ghost var whole, allowed := FirstN(Preorder(output, ""), maxItems), InBudget(output, maxItems, maxChars);
    FirstAhead(output, maxItems);
    CutIsPrefix(Leaves(whole), maxChars);
    values, reported, visited := Walk(Node(output, ""), maxItems, maxChars, rules, whole, allowed);
  }

  lemma FirstAhead(output: Json, maxItems: int)
    ensures Ahead([Node(output, "")], maxItems) == FirstN(Preorder(output, ""), maxItems)
  {
    var n := Node(output, "");
    assert Reversed([n]) == [n];
    assert PreorderAll([n][1..]) == [];
  }

  lemma ScanDone(whole: seq<Node>, allowed: seq<Chunk>, ahead: seq<Node>, maxChars: int,
                 scannedChars: int, visited: seq<Node>, chunks: seq<Chunk>)
    requires ahead == [] && ScanInv(whole, allowed, ahead, maxChars, scannedChars, visited, chunks)
    ensures visited == whole && chunks == allowed
  {}

  method Evidence(output: Json, maxItems: int, maxChars: int, rules: TextRules)
    returns (line: Option<string>, tone: Tone)
    ensures Answers(rules, InBudget(output, maxItems, maxChars), line, tone)
  {
    ghost var visited;
    var values, reported;
    values, reported, visited := Scan(output, maxItems, maxChars, rules);
    var matched := Filter(reported, rules.needle);
    if matched != [] {
      var longest := Longest(matched);
      assert LongestMatch(rules, reported, longest);
      assert longest in reported && rules.needle(longest);
      return Some(FirstN(longest, 1000)), Destructive;
    }
    assert forall x :: x in reported && rules.needle(x) ==> x in matched;
    var mentioned := Filter(values, rules.needle);
    assert forall x :: x in mentioned <==> x in values && rules.needle(x);
    assert mentioned != [] ==> mentioned[0] in mentioned;
    return if values == [] then None else Some(FirstN(values[0], 1000)),
           if mentioned != [] then Warning else Success;
  }

  lemma {:induction false} ConcatAppend(chunks: seq<Chunk>, c: Chunk)
    ensures Concat(chunks + [c]) == Concat(chunks) + c.text
  {
    if chunks == [] {
      assert chunks + [c] == [c];
    } else {
      assert (chunks + [c])[1..] == chunks[1..] + [c];
      ConcatAppend(chunks[1..], c);
    }
  }
}
