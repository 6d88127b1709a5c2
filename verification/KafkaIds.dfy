/** The workflow IDs that the Kafka receiver gives to messages: they are what makes a redelivered message a duplicate. */
module KafkaIds {

  // ---------- Workflow IDs of messages ----------

  function Digit(d: nat): char
    requires d < 10
  {
    "0123456789"[d]
  }

  function Decimal(n: nat): (s: string)
    ensures |s| > 0
  {
    if n < 10 then [Digit(n)] else Decimal(n / 10) + [Digit(n % 10)]
  }

  lemma {:induction false} DecimalInjective(a: nat, b: nat)
    requires Decimal(a) == Decimal(b)
    ensures a == b
  {
    var s, n := Decimal(a), |Decimal(a)|;
    assert s[n - 1] == Digit(a % 10) == Digit(b % 10);
    if a >= 10 && b >= 10 {
      assert s[..n - 1] == Decimal(a / 10) == Decimal(b / 10);
      DecimalInjective(a / 10, b / 10);
    }
  }

  datatype Source = Source(topic: string, partition: nat, group: string)

  function MessageId(src: Source, offset: nat): string {
    "kafkajs-" + src.topic + "-" + Decimal(src.partition) + "-" + src.group + "-" + Decimal(offset)
  }

  function PartitionKey(src: Source): string {
    src.group + ":" + src.topic + ":" + Decimal(src.partition)
  }

  /** Within one partition and group, different offsets have different workflow IDs. */
  lemma MessageIdInjective(src: Source, a: nat, b: nat)
    requires MessageId(src, a) == MessageId(src, b)
    ensures a == b
  {
    var prefix := "kafkajs-" + src.topic + "-" + Decimal(src.partition) + "-" + src.group + "-";
    assert MessageId(src, a) == prefix + Decimal(a) && MessageId(src, b) == prefix + Decimal(b);
    assert MessageId(src, a)[|prefix|..] == Decimal(a) && MessageId(src, b)[|prefix|..] == Decimal(b);
    DecimalInjective(a, b);
  }

  // ---------- Different sources ----------

  predicate NoDash(s: string) {
    forall i | 0 <= i < |s| :: s[i] != '-'
  }

  lemma {:induction false} DecimalHasNoDash(n: nat)
    ensures NoDash(Decimal(n))
  {
    if n >= 10 {
      DecimalHasNoDash(n / 10);
    }
  }

  // A text is read up to its first separator, or back to its last one.
  lemma SplitFirst(x: string, r: string, y: string, q: string)
    requires NoDash(x) && NoDash(y) && x + "-" + r == y + "-" + q
    ensures x == y && r == q
  {
    var a, b := x + "-" + r, y + "-" + q;
    assert a[|x|] == '-' && b[|y|] == '-';
    assert forall i | 0 <= i < |x| :: a[i] == x[i];
    assert forall i | 0 <= i < |y| :: b[i] == y[i];
    assert |x| == |y|;
    assert x == a[..|x|] && y == b[..|y|] && r == a[|x| + 1..] && q == b[|y| + 1..];
  }

  lemma SplitLast(r: string, x: string, q: string, y: string)
    requires NoDash(x) && NoDash(y) && r + "-" + x == q + "-" + y
    ensures x == y && r == q
  {
    var a, b := r + "-" + x, q + "-" + y;
    assert a[|r|] == '-' && b[|q|] == '-';
    assert forall i | |r| < i < |a| :: a[i] == x[i - |r| - 1];
    assert forall i | |q| < i < |b| :: b[i] == y[i - |q| - 1];
    assert |r| == |q|;
    assert r == a[..|r|] && q == b[..|q|] && x == a[|r| + 1..] && y == b[|q| + 1..];
  }

  // What an ID says about its source, and the part of it that comes before the group.
  function SourceText(src: Source): string {
    src.topic + "-" + (Decimal(src.partition) + "-" + src.group)
  }

  function Stem(topic: string, partition: nat): string {
    topic + "-" + Decimal(partition) + "-"
  }

  lemma IdParts(src: Source, offset: nat)
    ensures MessageId(src, offset) == "kafkajs-" + (SourceText(src) + "-" + Decimal(offset))
    ensures SourceText(src) == Stem(src.topic, src.partition) + src.group
  {
  }

  lemma SameIdSameText(a: Source, o: nat, b: Source, p: nat)
    requires MessageId(a, o) == MessageId(b, p)
    ensures o == p && SourceText(a) == SourceText(b)
  {
    IdParts(a, o);
    IdParts(b, p);
    var x, y := SourceText(a) + "-" + Decimal(o), SourceText(b) + "-" + Decimal(p);
    assert ("kafkajs-" + x)[8..] == x && ("kafkajs-" + y)[8..] == y;
    DecimalHasNoDash(o);
    DecimalHasNoDash(p);
    SplitLast(SourceText(a), Decimal(o), SourceText(b), Decimal(p));
    DecimalInjective(o, p);
  }

  // The other topic begins with this topic and this partition, so that this source's group can spell out the rest of it.
  predicate Shadows(topic: string, partition: nat, other: string) {
    Stem(topic, partition) <= other + "-"
  }

  lemma SameTopic(a: Source, b: Source)
    requires SourceText(a) == SourceText(b) && |a.topic| == |b.topic|
    ensures a == b
  {
    assert SourceText(a)[..|a.topic|] == a.topic && SourceText(b)[..|b.topic|] == b.topic;
    var x, y := Decimal(a.partition) + "-" + a.group, Decimal(b.partition) + "-" + b.group;
    assert SourceText(a)[|a.topic| + 1..] == x && SourceText(b)[|b.topic| + 1..] == y;
    DecimalHasNoDash(a.partition);
    DecimalHasNoDash(b.partition);
    SplitFirst(Decimal(a.partition), a.group, Decimal(b.partition), b.group);
    DecimalInjective(a.partition, b.partition);
  }

  // In one text read in two ways, a shorter topic's partition ends within the longer topic, or where it ends.
  lemma ShorterShadows(a: Source, b: Source)
    requires SourceText(a) == SourceText(b) && |a.topic| < |b.topic|
    ensures Shadows(a.topic, a.partition, b.topic)
  {
    var n, text, digits := |a.topic|, SourceText(a), Decimal(a.partition);
    DecimalHasNoDash(a.partition);
    assert text[n] == '-' && text[n + 1 + |digits|] == '-' && text[|b.topic|] == '-';
    assert forall i | 0 <= i < |digits| :: text[n + 1 + i] == digits[i];
    assert n + |digits| < |b.topic|;
    IdParts(a, 0);
    assert text[..n + 2 + |digits|] == Stem(a.topic, a.partition);
    assert text[..|b.topic| + 1] == b.topic + "-";
  }

  /** Two messages with one workflow ID are the same message of the same source, or one's topic and partition begin the other's topic. */
  lemma SameIdMeansSameOrShadowed(a: Source, o: nat, b: Source, p: nat)
    requires MessageId(a, o) == MessageId(b, p)
    ensures o == p
    ensures a == b || Shadows(a.topic, a.partition, b.topic) || Shadows(b.topic, b.partition, a.topic)
  {
    SameIdSameText(a, o, b, p);
    if |a.topic| == |b.topic| {
      SameTopic(a, b);
    } else if |a.topic| < |b.topic| {
      ShorterShadows(a, b);
    } else {
      ShorterShadows(b, a);
    }
  }

  /** Where it does, there are groups whose IDs collide, at every offset. */
  lemma ShadowedCollide(topic: string, partition: nat, other: string, q: nat, group: string, offset: nat) returns (a: Source, b: Source)
    requires Shadows(topic, partition, other)
    ensures a.topic == topic && a.partition == partition && b == Source(other, q, group) && a != b
    ensures MessageId(a, offset) == MessageId(b, offset)
  {
    b := Source(other, q, group);
    var stem := Stem(topic, partition);
    var rest := (other + "-")[|stem|..];
    a := Source(topic, partition, rest + (Decimal(q) + "-" + group));
    IdParts(a, offset);
    IdParts(b, offset);
    assert other + "-" == stem + rest;
    assert SourceText(b) == (other + "-") + (Decimal(q) + "-" + group);
    assert SourceText(a) == stem + (rest + (Decimal(q) + "-" + group)) == (stem + rest) + (Decimal(q) + "-" + group);
  }

  // No two messages of the two partitions share an ID, whatever the groups.
  ghost predicate IdsApart(topic: string, partition: nat, other: string, q: nat) {
    forall g: string, h: string, o: nat, p: nat {:trigger MessageId(Source(topic, partition, g), o), MessageId(Source(other, q, h), p)} ::
      MessageId(Source(topic, partition, g), o) == MessageId(Source(other, q, h), p) ==> topic == other && partition == q && g == h && o == p
  }

  /**
  The exact condition on two partitions under which no groups make their IDs collide: neither topic begins with the
  other topic and its partition.
  */
  lemma IdsApartExactly(topic: string, partition: nat, other: string, q: nat)
    ensures IdsApart(topic, partition, other, q) <==> !Shadows(topic, partition, other) && !Shadows(other, q, topic)
  {
    if Shadows(topic, partition, other) {
      var a, b := ShadowedCollide(topic, partition, other, q, "", 0);
      assert MessageId(Source(topic, partition, a.group), 0) == MessageId(Source(other, q, b.group), 0);
    } else if Shadows(other, q, topic) {
      var b, a := ShadowedCollide(other, q, topic, partition, "", 0);
      assert MessageId(Source(topic, partition, a.group), 0) == MessageId(Source(other, q, b.group), 0);
    } else {
      forall g: string, h: string, o: nat, p: nat | MessageId(Source(topic, partition, g), o) == MessageId(Source(other, q, h), p)
        ensures topic == other && partition == q && g == h && o == p
      {
        SameIdMeansSameOrShadowed(Source(topic, partition, g), o, Source(other, q, h), p);
      }
    }
  }

  /** In particular topics without the separator never collide. */
  lemma DashFreeTopicsApart(topic: string, partition: nat, other: string, q: nat)
    requires NoDash(topic) && NoDash(other)
    ensures IdsApart(topic, partition, other, q)
  {
    NoShadowWithoutDash(topic, partition, other);
    NoShadowWithoutDash(other, q, topic);
    IdsApartExactly(topic, partition, other, q);
  }

  lemma NoShadowWithoutDash(topic: string, partition: nat, other: string)
    requires NoDash(other)
    ensures !Shadows(topic, partition, other)
  {
    var stem := Stem(topic, partition);
    assert stem[|topic|] == '-' && |stem| >= |topic| + 3;
  }

  /** The separator may occur in topics and groups: two sources whose messages share an ID, so that one is skipped as a duplicate. */
  lemma MessageIdsCollideAcrossSources()
    ensures var a := Source("orders-1", 2, "g"); var b := Source("orders", 1, "2-g");
            a != b && MessageId(a, 5) == MessageId(b, 5)
  {
    assert Decimal(1) == "1" && Decimal(2) == "2" && Decimal(5) == "5";
    assert "kafkajs-" + "orders-1" + "-" + "2" + "-" + "g" + "-" + "5" == "kafkajs-orders-1-2-g-5";
    assert "kafkajs-" + "orders" + "-" + "1" + "-" + "2-g" + "-" + "5" == "kafkajs-orders-1-2-g-5";
  }
}
