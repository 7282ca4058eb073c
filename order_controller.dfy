/** The handlers of server/controllers/order.controller.ts: buying a course
    and the admin list of orders. */
module OrderController {
  import opened Wrappers
  import opened Http
  import opened ApiErrors
  import opened ApiResponses
  import opened UserModels
  import opened Documents
  import Text

  const AlreadyPurchased := "Dear user, you've already purchased this course."
  const NoSuchCourse := "Course does not exist."
  const OrderUserRequired := "Order validation failed: userId: Path `userId` is required."
  const OrderConfirmation := "New Order Confirmation"
  const OrderCreatedMessage := "Order created"

  datatype OrderBody = OrderBody(courseId: CourseId, paymentInfo: Option<string>)

  /** The reply payload `{ order: course }`: it carries the updated course. */
  datatype OrderData = OrderData(order: Course)

  /** `if (course.purchases) course.purchases += 1; else course.purchases = 1;` */
  function IncrementPurchases(p: Option<int>): (q: Option<int>)
    ensures q == Some(p.GetOr(0) + 1)
    ensures p.None? || p == Some(0) ==> q == Some(1)
  {
    if p.Some? && p.value != 0 then Some(p.value + 1) else Some(1)
  }

  /** The message of the order notification. */
  function NotificationMessage(userName: string, courseName: string): string {
    "You've obtained a new order from " + userName + " for the course " + courseName + " "
  }

  /** The notification an order creates: addressed to the buyer, unread. */
  function OrderNotification(id: string, u: UserRecord, c: Course, now: int): (n: Notification)
    ensures n.userId == u.id && n.status == Unread && n.createdAt == now && n.title == OrderConfirmation
  {
    Notification(id, u.id, OrderConfirmation, NotificationMessage(u.name, c.name), Unread, now)
  }

  /** `req.user?._id`, then `User.findById`. */
  function Buyer(users: seq<UserRecord>, caller: Option<UserView>): Option<UserRecord> {
    if caller.Some? then FindByIdIn(users, caller.value.id) else None
  }

  /** The checks of `createOrder` before anything is written, in order: the
      course is not already owned, it exists, and the buyer exists (else
      `Order.create` rejects the missing `userId`). The result is the buyer's
      position and the course's position. */
  function OrderCheck(users: seq<UserRecord>, courses: seq<Course>, caller: Option<UserView>, courseId: CourseId)
    : (r: Result<(nat, nat), ApiError>)
    ensures r.Failure? ==> r.error.statusCode == 500
    ensures r.Success? ==>
              r.value.0 < |users| && Buyer(users, caller) == Some(users[r.value.0]) &&
              courseId !in users[r.value.0].courses &&
              r.value.1 < |courses| && courses[r.value.1].id == courseId
    ensures Buyer(users, caller).Some? && courseId in Buyer(users, caller).value.courses ==>
              r == Failure(Throw(500, AlreadyPurchased))
    ensures (forall k :: 0 <= k < |courses| ==> courses[k].id != courseId) ==> r.Failure?
  {
    var user := Buyer(users, caller);
    if user.Some? && courseId in user.value.courses then Failure(Throw(500, AlreadyPurchased))
    else match CourseIndexIn(courses, courseId, 0)
      case None => Failure(Throw(500, NoSuchCourse))
      case Some(j) =>
        if user.None? then Failure(Throw(500, OrderUserRequired))
        else
          var i := IdIndexIn(users, caller.value.id, 0);
          Success((i.value, j))
  }

  /** The writes of `createOrder` for the buyer at `i` and the course at `j`:
      the order, the buyer's course list (saved without re-hashing the
      password), the notification, and the purchase count. The confirmation
      mail is fire-and-forget: its outcome changes nothing. */
  method RecordPurchase(users: UserStore, courses: CourseStore, orders: OrderStore, notifications: NotificationStore,
                        i: nat, j: nat, paymentInfo: Option<string>, now: int)
    returns (course: Course)
    requires users.Valid() && i < |users.users| && j < |courses.courses|
    modifies users, courses, orders, notifications
    ensures users.Valid()
    ensures var u := old(users.users[i]);
            var c := old(courses.courses[j]);
            orders.orders == old(orders.orders) + [Order(c.id, u.id, paymentInfo, now)] &&
            users.users == old(users.users)[i := u.(courses := u.courses + [c.id])] &&
            notifications.notifications ==
              old(notifications.notifications) + [OrderNotification(ObjectId(|old(notifications.notifications)|), u, c, now)] &&
            course == c.(purchases := IncrementPurchases(c.purchases)) &&
            courses.courses == old(courses.courses)[j := course]
  {
    var u := users.users[i];
    var c := courses.courses[j];
    orders.Create(Order(c.id, u.id, paymentInfo, now));
    var doc := new UserDocument.Load(u);
    doc.PushCourse(c.id);
    doc.PreSave();
    users.Replace(i, doc.Record());
    notifications.Create(OrderNotification(ObjectId(|notifications.notifications|), u, c, now));
    course := c.(purchases := IncrementPurchases(c.purchases));
    courses.Replace(j, course);
  }

  /** `createOrder`: on any failure nothing is written and the status is
      500; every request that passes the checks succeeds, and then exactly one order and one notification are added, the
      course joins the buyer's list and its purchase count rises by one; the
      reply carries the updated course. Whether the confirmation mail was
      delivered (`mailDelivered`) appears nowhere in the contract: a mail
      failure changes neither the reply nor the stores. */
  method CreateOrder(users: UserStore, courses: CourseStore, orders: OrderStore, notifications: NotificationStore,
                     caller: Option<UserView>, body: OrderBody, mailDelivered: bool, now: int)
    returns (r: Result<Reply<ApiResponse<OrderData>>, ApiError>)
    requires users.Valid()
    modifies users, courses, orders, notifications
    ensures users.Valid()
    ensures var check := OrderCheck(old(users.users), old(courses.courses), caller, body.courseId);
            check.Failure? ==>
              r == Failure(check.error) &&
              users.users == old(users.users) && courses.courses == old(courses.courses) &&
              orders.orders == old(orders.orders) && notifications.notifications == old(notifications.notifications)
    ensures OrderCheck(old(users.users), old(courses.courses), caller, body.courseId).Success? ==> r.Success?
    ensures r.Success? ==>
              var check := OrderCheck(old(users.users), old(courses.courses), caller, body.courseId);
              check.Success? &&
              var (i, j) := check.value;
              var u := old(users.users[i]);
              var c := old(courses.courses[j]);
              orders.orders == old(orders.orders) + [Order(body.courseId, u.id, body.paymentInfo, now)] &&
              users.users == old(users.users)[i := u.(courses := u.courses + [body.courseId])] &&
              notifications.notifications ==
                old(notifications.notifications) + [OrderNotification(ObjectId(|old(notifications.notifications)|), u, c, now)] &&
              courses.courses == old(courses.courses)[j := c.(purchases := Some(c.purchases.GetOr(0) + 1))] &&
              r.value == Reply(201, [], NewApiResponse(201, OrderData(courses.courses[j]), Some(OrderCreatedMessage)))
  {
    var check := OrderCheck(users.users, courses.courses, caller, body.courseId);
    if check.Failure? {
      return Failure(check.error);
    }
    var (i, j) := check.value;
    var course := RecordPurchase(users, courses, orders, notifications, i, j, body.paymentInfo, now);
    r := Success(Reply(201, [], NewApiResponse(201, OrderData(course), Some(OrderCreatedMessage))));
  }

  /** Buying a course twice: the second order is refused and writes nothing. */
  method SecondPurchaseRefused(users: UserStore, courses: CourseStore, orders: OrderStore, notifications: NotificationStore,
                               caller: Option<UserView>, body: OrderBody, now: int)
    returns (first: Result<Reply<ApiResponse<OrderData>>, ApiError>, second: Result<Reply<ApiResponse<OrderData>>, ApiError>)
    requires users.Valid()
    modifies users, courses, orders, notifications
    ensures first.Success? ==> second == Failure(Throw(500, AlreadyPurchased))
  {
    first := CreateOrder(users, courses, orders, notifications, caller, body, true, now);
    ghost var afterFirst := users.users;
    second := CreateOrder(users, courses, orders, notifications, caller, body, false, now);
    if first.Success? {
      var (i, _) := OrderCheck(old(users.users), old(courses.courses), caller, body.courseId).value;
      FoundByKeys(afterFirst, i);
    }
  }

  /** `getAllOrdersForAdmin`: every order, newest first. */
  method GetAllOrdersForAdmin(orders: OrderStore) returns (r: Reply<ApiResponse<seq<Order>>>)
    ensures r.status == 200 && r.body.statusCode == 200 && r.body.success
    ensures multiset(r.body.data) == multiset(orders.orders)
    ensures SortedDesc(r.body.data, Documents.OrderCreated)
  {
    r := Reply(200, [], NewApiResponse(200, NewestOrdersFirst(orders.orders), None));
  }
}
