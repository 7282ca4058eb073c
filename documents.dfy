/** The course, order and notification documents the order and notification
    handlers touch, their in-memory collections, and the `createdAt`
    ordering both list handlers ask the database for. */
module Documents {
  import opened Wrappers
  import opened Collections

  type CourseId = string

  /** A course; only the fields the handlers read or write. `purchases` has
      the schema default 0, and is `None` on a document stored without it. */
  datatype Course = Course(id: CourseId, name: string, price: int, purchases: Option<int>)

  /** An order; `paymentInfo` is the opaque `payment_info` object. */
  datatype Order = Order(courseId: CourseId, userId: string, paymentInfo: Option<string>, createdAt: int)

  datatype Notification = Notification(id: string, userId: string, title: string, message: string, status: string, createdAt: int)

  const Unread := "unread"
  const Read := "read"

  // -------------------------------------------------------------- ordering

  /** `xs` is in descending order of `key`. */
  ghost predicate SortedDesc<T>(xs: seq<T>, key: T -> int) {
    forall i, j :: 0 <= i < j < |xs| ==> key(xs[i]) >= key(xs[j])
  }

  function InsertDesc<T>(x: T, ys: seq<T>, key: T -> int): (r: seq<T>)
    ensures |r| == |ys| + 1
  {
    if ys == [] || key(x) >= key(ys[0]) then [x] + ys
    else [ys[0]] + InsertDesc(x, ys[1..], key)
  }

  /** `.sort({ createdAt: -1 })`: an insertion sort on the key, newest first. */
  function SortDesc<T>(xs: seq<T>, key: T -> int): (r: seq<T>)
    ensures |r| == |xs|
  {
    if xs == [] then [] else InsertDesc(xs[0], SortDesc(xs[1..], key), key)
  }

  lemma {:induction false} InsertDescPermutes<T>(x: T, ys: seq<T>, key: T -> int)
    ensures multiset(InsertDesc(x, ys, key)) == multiset(ys) + multiset{x}
    decreases |ys|
  {
    if ys == [] || key(x) >= key(ys[0]) {
      assert multiset([x] + ys) == multiset{x} + multiset(ys);
    } else {
      InsertDescPermutes(x, ys[1..], key);
      assert ys == [ys[0]] + ys[1..];
      assert multiset([ys[0]] + InsertDesc(x, ys[1..], key)) == multiset{ys[0]} + multiset(InsertDesc(x, ys[1..], key));
    }
  }

  lemma {:induction false} InsertDescSorted<T>(x: T, ys: seq<T>, key: T -> int)
    requires SortedDesc(ys, key)
    ensures SortedDesc(InsertDesc(x, ys, key), key)
    decreases |ys|
  {
    if ys != [] && key(x) < key(ys[0]) {
      var rest := InsertDesc(x, ys[1..], key);
      InsertDescSorted(x, ys[1..], key);
      InsertDescPermutes(x, ys[1..], key);
      forall i | 0 <= i < |rest|
        ensures key(ys[0]) >= key(rest[i])
      {
        assert rest[i] in multiset(rest);
        if rest[i] != x {
          assert rest[i] in multiset(ys[1..]);
          var k :| 0 <= k < |ys[1..]| && ys[1..][k] == rest[i];
          assert ys[1..][k] == ys[k + 1];
        }
      }
    }
  }

  /** The sorted list holds exactly the same documents, newest first. */
  lemma {:induction false} SortDescCorrect<T>(xs: seq<T>, key: T -> int)
    ensures SortedDesc(SortDesc(xs, key), key)
    ensures multiset(SortDesc(xs, key)) == multiset(xs)
  {
    if xs != [] {
      SortDescCorrect(xs[1..], key);
      InsertDescSorted(xs[0], SortDesc(xs[1..], key), key);
      InsertDescPermutes(xs[0], SortDesc(xs[1..], key), key);
      assert xs == [xs[0]] + xs[1..];
      assert multiset(xs) == multiset{xs[0]} + multiset(xs[1..]);
    }
  }

  function OrderCreated(o: Order): int { o.createdAt }
  function NotificationCreated(n: Notification): int { n.createdAt }

  /** `Order.find().sort({ createdAt: -1 })` */
  function NewestOrdersFirst(os: seq<Order>): (r: seq<Order>)
    ensures SortedDesc(r, OrderCreated) && multiset(r) == multiset(os)
  {
    SortDescCorrect(os, OrderCreated);
    SortDesc(os, OrderCreated)
  }

  /** `Notification.find().sort({ createdAt: -1 })` */
  function NewestNotificationsFirst(ns: seq<Notification>): (r: seq<Notification>)
    ensures SortedDesc(r, NotificationCreated) && multiset(r) == multiset(ns)
  {
    SortDescCorrect(ns, NotificationCreated);
    SortDesc(ns, NotificationCreated)
  }

  // ----------------------------------------------------------- collections

  /** Position of the first course with the given id, from `from` on. */
  function CourseIndexIn(cs: seq<Course>, id: CourseId, from: nat): Option<nat>
    requires from <= |cs|
  {
    IndexWhere(cs, (c: Course) => c.id, id, from)
  }

  class CourseStore {
    var courses: seq<Course>

    constructor (courses: seq<Course>)
      ensures this.courses == courses
    {
      this.courses := courses;
    }

    /** Position of `Course.findById(id)`. */
    function IndexOf(id: CourseId): Option<nat>
      reads this
    {
      CourseIndexIn(courses, id, 0)
    }

    /** `course.save()` of the document at position `i`. */
    method Replace(i: nat, c: Course)
      requires i < |courses|
      modifies this
      ensures courses == old(courses)[i := c]
    {
      courses := courses[i := c];
    }
  }

  class OrderStore {
    var orders: seq<Order>

    constructor (orders: seq<Order>)
      ensures this.orders == orders
    {
      this.orders := orders;
    }

    /** `Order.create(data)` */
    method Create(o: Order)
      modifies this
      ensures orders == old(orders) + [o]
    {
      orders := orders + [o];
    }
  }

  /** Position of the first notification with the given id, from `from` on. */
  function NotificationIndexIn(ns: seq<Notification>, id: string, from: nat): Option<nat>
    requires from <= |ns|
  {
    IndexWhere(ns, (n: Notification) => n.id, id, from)
  }

  class NotificationStore {
    var notifications: seq<Notification>

    constructor (notifications: seq<Notification>)
      ensures this.notifications == notifications
    {
      this.notifications := notifications;
    }

    /** Position of `Notification.findById(id)`. */
    function IndexOf(id: string): Option<nat>
      reads this
    {
      NotificationIndexIn(notifications, id, 0)
    }

    /** `Notification.create(data)` */
    method Create(n: Notification)
      modifies this
      ensures notifications == old(notifications) + [n]
    {
      notifications := notifications + [n];
    }

    /** `notification.save()` of the document at position `i`. */
    method Replace(i: nat, n: Notification)
      requires i < |notifications|
      modifies this
      ensures notifications == old(notifications)[i := n]
    {
      notifications := notifications[i := n];
    }
  }
}
