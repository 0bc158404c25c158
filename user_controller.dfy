/**
 * The decision logic under the user HTTP handlers: which requests are
 * rejected, which user-model calls a request issues and in what order, how a
 * user's role in a course is resolved, and how a user's course references are
 * expanded into course records. The User and Course model methods are opaque:
 * a call to one is recorded as an Effect, never interpreted.
 */
module UserController {
  import opened Wrappers
  import opened JsBuiltins

  type Uuid = string

  /** A JSON request body: the keys present, each with its (string) value. */
  type Body = map<string, string>

  /** A course as the store returns it. */
  datatype Course = Course(uuid: Uuid, instructorList: seq<Uuid>, studentList: seq<Uuid>)

  /** A user as the store returns it (the fields the handlers read). */
  datatype User = User(uuid: Uuid, studentCourseList: seq<Uuid>, instructorCourseList: seq<Uuid>)

  /** The user a call is made on: the authenticated caller, or a user looked up by uuid. */
  datatype UserRef = Caller | ById(id: Uuid)

  /** The opaque User model methods the handlers call. */
  datatype Mutation =
    | SetName | SetEmail | AddStudentCourse | AddInstructorCourse | AddPost | AddComment
    | AddFollowedPost | AddLikedPost | RemoveLikedPost | AddLikedComment | RemoveLikedComment
    | AddIcon

  /** A call a handler makes on the store or on a user object. */
  datatype Effect =
    | PushUser(fields: Body)
    | Mutate(target: UserRef, mutation: Mutation, arg: string)
    | DeleteUserById(id: Uuid)

  /**
   * The response a handler sends: 200 with a body, 422 with a message, 410,
   * or none at all when an exception escapes the handler.
   */
  datatype Response<T> = Ok(body: T) | Err422(error: string) | Err410 | Unhandled

  /** A handler's calls, in the order it makes them, and its response. */
  datatype Handled<T> = Handled(effects: seq<Effect>, response: Response<T>)

  // ---------------------------------------------------------------- addUser

  const MissingUserFields := "Missing one of the following parameters: name, email, or uuid"

  /**
   * addUser: a body lacking name, email or uuid is refused with 422 before
   * the store is touched; otherwise the body is pushed to the store, and the
   * response is 200 or 410 as the push succeeds or fails.
   */
  function AddUser(body: Body, pushSucceeds: bool): (h: Handled<string>)
    ensures h.response.Err422? <==> !("name" in body && "email" in body && "uuid" in body)
    ensures h.response.Err422? ==> h.effects == [] && h.response.error == MissingUserFields
    ensures !h.response.Err422? ==> h.effects == [PushUser(body)]
    ensures h.response.Ok? <==> "name" in body && "email" in body && "uuid" in body && pushSucceeds
    ensures !h.response.Unhandled?
  {
    if !("name" in body && "email" in body && "uuid" in body) then
      Handled([], Err422(MissingUserFields))
    else if pushSucceeds then
      Handled([PushUser(body)], Ok("Added user " + body["uuid"]))
    else
      Handled([PushUser(body)], Err410)
  }

  // ---------------------------------------------------------------- getUser

  /**
   * Promise.all over the course lookups: the records of the referenced
   * courses, in list order, or None as soon as one uuid does not resolve.
   */
  function ExpandCourses(ids: seq<Uuid>, courses: map<Uuid, Course>): (r: Option<seq<Course>>)
    ensures r.Some? <==> forall i :: 0 <= i < |ids| ==> ids[i] in courses
    ensures r.Some? ==> |r.value| == |ids| && forall i :: 0 <= i < |ids| ==> r.value[i] == courses[ids[i]]
  {
    if ids == [] then Some([])
    else if ids[0] !in courses then None
    else
      match ExpandCourses(ids[1..], courses)
      case None => assert forall i :: 0 < i < |ids| ==> ids[i] == ids[1..][i - 1]; None
      case Some(rest) => Some([courses[ids[0]]] + rest)
  }

  /** The user getUser shows: the one named by the userUUID query, else the caller. */
  function ViewedUser(userUUID: Option<string>, caller: Option<User>, users: map<Uuid, User>): Option<User>
  {
    if Truthy(userUUID) then
      if userUUID.value in users then Some(users[userUUID.value]) else None
    else caller
  }

  /** The user record with both course lists filled in with course records. */
  datatype UserView = UserView(
    user: User,
    filledInStudentCourseList: seq<Course>,
    filledInInstructorCourseList: seq<Course>)

  /**
   * getUser: the viewed user with its student and instructor course lists
   * expanded. A failed user lookup, a missing caller or any course reference
   * that does not resolve makes the whole response 410: there is no partial
   * list.
   */
  function GetUser(userUUID: Option<string>, caller: Option<User>, users: map<Uuid, User>,
                   courses: map<Uuid, Course>): (r: Response<UserView>)
    ensures r.Ok? || r.Err410?
    ensures r.Ok? <==>
      && ViewedUser(userUUID, caller, users).Some?
      && (forall id :: id in ViewedUser(userUUID, caller, users).value.studentCourseList ==> id in courses)
      && (forall id :: id in ViewedUser(userUUID, caller, users).value.instructorCourseList ==> id in courses)
    ensures r.Ok? && Truthy(userUUID) ==> userUUID.value in users && r.body.user == users[userUUID.value]
    ensures r.Ok? && !Truthy(userUUID) ==> caller.Some? && r.body.user == caller.value
    ensures r.Ok? ==>
      var u := ViewedUser(userUUID, caller, users).value;
      && r.body.user == u
      && |r.body.filledInStudentCourseList| == |u.studentCourseList|
      && (forall i :: 0 <= i < |u.studentCourseList| ==>
            r.body.filledInStudentCourseList[i] == courses[u.studentCourseList[i]])
      && |r.body.filledInInstructorCourseList| == |u.instructorCourseList|
      && (forall i :: 0 <= i < |u.instructorCourseList| ==>
            r.body.filledInInstructorCourseList[i] == courses[u.instructorCourseList[i]])
  {
    match ViewedUser(userUUID, caller, users)
    case None => Err410
    case Some(u) =>
      match (ExpandCourses(u.studentCourseList, courses), ExpandCourses(u.instructorCourseList, courses))
      case (Some(students), Some(instructors)) => Ok(UserView(u, students, instructors))
      case _ => Err410
  }

  /**
   * A user with one resolvable and one dangling student course gets a 410,
   * not a view holding the one course that resolves.
   */
  lemma DanglingCourseFailsWholeView(u: User, courses: map<Uuid, Course>, good: Uuid, dangling: Uuid)
    requires good in courses && dangling !in courses
    requires u.studentCourseList == [good, dangling]
    ensures GetUser(None, Some(u), map[], courses) == Err410
  {
  }

  // ---------------------------------------------------------------- updateUser

  /** The body key that triggers each mutation in updateUser. */
  function KeyOf(m: Mutation): string
  {
    match m
    case SetName => "name"
    case SetEmail => "email"
    case AddStudentCourse => "studentCourse"
    case AddInstructorCourse => "instructorCourse"
    case AddPost => "post"
    case AddComment => "comment"
    case AddFollowedPost => "followedPost"
    case AddLikedPost => "likedPost"
    case RemoveLikedPost => "rmLikedPost"
    case AddLikedComment => "likedComment"
    case RemoveLikedComment => "rmLikedComment"
    case AddIcon => "icon"
  }

  /** The position of each mutation in updateUser's fixed order. */
  function Rank(m: Mutation): nat
  {
    match m
    case SetName => 0
    case SetEmail => 1
    case AddStudentCourse => 2
    case AddInstructorCourse => 3
    case AddPost => 4
    case AddComment => 5
    case AddFollowedPost => 6
    case AddLikedPost => 7
    case RemoveLikedPost => 8
    case AddLikedComment => 9
    case RemoveLikedComment => 10
    case AddIcon => 11
  }

  /** The mutations updateUser tests for, in the order it tests them. */
  const UpdateOrder: seq<Mutation> := [
    SetName, SetEmail, AddStudentCourse, AddInstructorCourse, AddPost, AddComment,
    AddFollowedPost, AddLikedPost, RemoveLikedPost, AddLikedComment, RemoveLikedComment,
    AddIcon]

  /** The keys updateUser recognises. */
  function RecognisedKeys(): set<string>
  {
    set m | m in UpdateOrder :: KeyOf(m)
  }

  /** The call one mutation contributes: one call with its key's value, when the key is present. */
  function Step(m: Mutation, body: Body): seq<Effect>
  {
    if KeyOf(m) in body then [Mutate(Caller, m, body[KeyOf(m)])] else []
  }

  /**
   * The calls issued for the mutations ms, tested in order: each is on the
   * caller, for a listed mutation whose key is present, with that key's value.
   */
  function Planned(ms: seq<Mutation>, body: Body): (calls: seq<Effect>)
    ensures forall e :: e in calls ==>
      && e.Mutate? && e.target == Caller && e.mutation in ms
      && KeyOf(e.mutation) in body && e.arg == body[KeyOf(e.mutation)]
  {
    if ms == [] then [] else Planned(ms[..|ms| - 1], body) + Step(ms[|ms| - 1], body)
  }

  /** The calls updateUser makes on the caller for a body. */
  function UpdatePlan(body: Body): seq<Effect>
  {
    Planned(UpdateOrder, body)
  }

  /** Every listed mutation whose key is present is planned. */
  lemma {:induction false} PlannedComplete(ms: seq<Mutation>, body: Body, m: Mutation)
    requires m in ms && KeyOf(m) in body
    ensures Mutate(Caller, m, body[KeyOf(m)]) in Planned(ms, body)
  {
    if ms[|ms| - 1] != m {
      assert m in ms[..|ms| - 1];
      PlannedComplete(ms[..|ms| - 1], body, m);
    }
  }

  /** Mutations listed in strictly increasing rank are planned in strictly increasing rank. */
  lemma {:induction false} PlannedOrdered(ms: seq<Mutation>, body: Body)
    requires forall i, j :: 0 <= i < j < |ms| ==> Rank(ms[i]) < Rank(ms[j])
    ensures forall i, j :: 0 <= i < j < |Planned(ms, body)| ==>
      Rank(Planned(ms, body)[i].mutation) < Rank(Planned(ms, body)[j].mutation)
  {
    if ms != [] {
      var init := ms[..|ms| - 1];
      PlannedOrdered(init, body);
      var p := Planned(init, body);
      forall i | 0 <= i < |p| ensures Rank(p[i].mutation) < Rank(ms[|ms| - 1]) {
        assert p[i] in p;
      }
    }
  }

  /** The calls depend only on the body's recognised keys. */
  lemma {:induction false} PlannedIgnoresOtherKeys(ms: seq<Mutation>, body: Body, k: string, v: string)
    requires forall m :: m in ms ==> KeyOf(m) != k
    ensures Planned(ms, body[k := v]) == Planned(ms, body)
  {
    if ms != [] {
      PlannedIgnoresOtherKeys(ms[..|ms| - 1], body, k, v);
    }
  }

  /**
   * updateUser calls one user method for each recognised key present in the
   * body, with that key's value and in the fixed order name, email,
   * studentCourse, instructorCourse, post, comment, followedPost, likedPost,
   * rmLikedPost, likedComment, rmLikedComment, icon; no other call.
   */
  lemma UpdatePlanDispatch(body: Body)
    ensures forall e :: e in UpdatePlan(body) ==>
      e.Mutate? && e.target == Caller && KeyOf(e.mutation) in body && e.arg == body[KeyOf(e.mutation)]
    ensures forall m :: KeyOf(m) in body ==> Mutate(Caller, m, body[KeyOf(m)]) in UpdatePlan(body)
    ensures forall i, j :: 0 <= i < j < |UpdatePlan(body)| ==>
      Rank(UpdatePlan(body)[i].mutation) < Rank(UpdatePlan(body)[j].mutation)
  {
    forall m | KeyOf(m) in body ensures Mutate(Caller, m, body[KeyOf(m)]) in UpdatePlan(body) {
      assert m in UpdateOrder by { assert UpdateOrder[Rank(m)] == m; }
      PlannedComplete(UpdateOrder, body, m);
    }
    PlannedOrdered(UpdateOrder, body);
  }

  /** Adding an unrecognised key to the body changes nothing updateUser does. */
  lemma UpdatePlanIgnoresUnrecognisedKeys(body: Body, k: string, v: string)
    requires k !in RecognisedKeys()
    ensures UpdatePlan(body[k := v]) == UpdatePlan(body)
  {
    PlannedIgnoresOtherKeys(UpdateOrder, body, k, v);
  }

  /** With no recognised key in the body, updateUser makes no call. */
  lemma UpdatePlanEmpty(body: Body)
    ensures UpdatePlan(body) == [] <==> forall k :: k in RecognisedKeys() ==> k !in body
  {
    UpdatePlanDispatch(body);
    if UpdatePlan(body) == [] {
      forall k | k in RecognisedKeys() ensures k !in body {
        var m :| m in UpdateOrder && KeyOf(m) == k;
      }
    } else {
      var e := UpdatePlan(body)[0];
      assert e in UpdatePlan(body);
      assert e.mutation in UpdateOrder by { assert UpdateOrder[Rank(e.mutation)] == e.mutation; }
      assert KeyOf(e.mutation) in RecognisedKeys();
    }
  }

  /** Testing one more mutation appends that mutation's call, if any. */
  lemma PlannedExtend(done: seq<Mutation>, m: Mutation, body: Body)
    ensures Planned(done + [m], body) == Planned(done, body) + Step(m, body)
  {
  }

  /** One test of updateUser: when the key of m is present, the call for m is made. */
  method CallIfPresent(effects: seq<Effect>, m: Mutation, body: Body) returns (effects': seq<Effect>)
    ensures effects' == effects + Step(m, body)
  {
    effects' := effects;
    if KeyOf(m) in body {
      effects' := effects + [Mutate(Caller, m, body[KeyOf(m)])];
    }
  }

  /**
   * The dispatch of updateUser: the body's keys are tested one by one, in the
   * fixed order, and each key present makes the matching call on the caller.
   */
  method Dispatch(body: Body) returns (effects: seq<Effect>)
    ensures effects == UpdatePlan(body)
  {
    effects := [];
    ghost var done: seq<Mutation> := [];
    effects := CallIfPresent(effects, SetName, body);
    PlannedExtend(done, SetName, body);
    done := done + [SetName];
    effects := CallIfPresent(effects, SetEmail, body);
    PlannedExtend(done, SetEmail, body);
    done := done + [SetEmail];
    effects := CallIfPresent(effects, AddStudentCourse, body);
    PlannedExtend(done, AddStudentCourse, body);
    done := done + [AddStudentCourse];
    effects := CallIfPresent(effects, AddInstructorCourse, body);
    PlannedExtend(done, AddInstructorCourse, body);
    done := done + [AddInstructorCourse];
    effects := CallIfPresent(effects, AddPost, body);
    PlannedExtend(done, AddPost, body);
    done := done + [AddPost];
    effects := CallIfPresent(effects, AddComment, body);
    PlannedExtend(done, AddComment, body);
    done := done + [AddComment];
    effects := CallIfPresent(effects, AddFollowedPost, body);
    PlannedExtend(done, AddFollowedPost, body);
    done := done + [AddFollowedPost];
    effects := CallIfPresent(effects, AddLikedPost, body);
    PlannedExtend(done, AddLikedPost, body);
    done := done + [AddLikedPost];
    effects := CallIfPresent(effects, RemoveLikedPost, body);
    PlannedExtend(done, RemoveLikedPost, body);
    done := done + [RemoveLikedPost];
    effects := CallIfPresent(effects, AddLikedComment, body);
    PlannedExtend(done, AddLikedComment, body);
    done := done + [AddLikedComment];
    effects := CallIfPresent(effects, RemoveLikedComment, body);
    PlannedExtend(done, RemoveLikedComment, body);
    done := done + [RemoveLikedComment];
    effects := CallIfPresent(effects, AddIcon, body);
    PlannedExtend(done, AddIcon, body);
    done := done + [AddIcon];
    assert done == UpdateOrder;
  }

  const UpdatedMessage := "Updated user."

  /**
   * updateUser: the dispatch above, answered with 200. The calls are not
   * awaited, so failures after a call returns never reach the response. A
   * call that throws before returning (firstThrow names which of the issued
   * calls, counting from 0) skips the calls after it and the catch block
   * answers 410. Without an authenticated user the first call throws inside
   * the try block: 410, and nothing was issued.
   */
  method UpdateUser(body: Body, caller: Option<User>, firstThrow: Option<nat>) returns (h: Handled<string>)
    ensures caller.Some? && firstThrow.Some? && firstThrow.value < |UpdatePlan(body)| ==>
      h == Handled(UpdatePlan(body)[..firstThrow.value], Err410)
    ensures caller.Some? && !(firstThrow.Some? && firstThrow.value < |UpdatePlan(body)|) ==>
      h == Handled(UpdatePlan(body), Ok(UpdatedMessage))
    ensures caller.None? ==> h.effects == []
    ensures caller.None? ==> (h.response == Err410 <==> UpdatePlan(body) != [])
    ensures caller.None? ==> (h.response == Ok(UpdatedMessage) <==> UpdatePlan(body) == [])
  {
    if caller.None? {
      var anyRecognised := exists m | m in UpdateOrder :: KeyOf(m) in body;
      UpdatePlanEmpty(body);
      return Handled([], if anyRecognised then Err410 else Ok(UpdatedMessage));
    }
    var effects := Dispatch(body);
    if firstThrow.Some? && firstThrow.value < |effects| {
      return Handled(effects[..firstThrow.value], Err410);
    }
    h := Handled(effects, Ok(UpdatedMessage));
  }

  // ---------------------------------------------------------------- addUserToCourse

  const MissingCourseOrUserUuid := "Missing parameter: courseUUID or userUUID"

  /** The user addUserToCourse enrols: the body's userId when truthy, else the caller. */
  function UserToAdd(body: Body): UserRef
  {
    if "userId" in body && body["userId"] != "" then ById(body["userId"]) else Caller
  }

  /** The enrolment call: as instructor when the body's type is "instructor", else as student. */
  function EnrolAs(body: Body): Mutation
  {
    if "type" in body && body["type"] == "instructor" then AddInstructorCourse else AddStudentCourse
  }

  /**
   * addUserToCourse: 422 before any lookup when the course id is missing or
   * empty or there is no caller; 410 when the course does not resolve or the
   * enrolment call fails; otherwise one enrolment call for the course's uuid.
   */
  function AddUserToCourse(courseId: Option<string>, body: Body, caller: Option<User>,
                           courses: map<Uuid, Course>, enrolSucceeds: bool): (h: Handled<string>)
    ensures h.response.Err422? <==> !Truthy(courseId) || caller.None?
    ensures h.response.Err422? ==> h.effects == [] && h.response.error == MissingCourseOrUserUuid
    ensures !h.response.Err422? && courseId.value !in courses ==> h == Handled([], Err410)
    ensures !h.response.Err422? && courseId.value in courses ==>
      && |h.effects| == 1 && h.effects[0].Mutate?
      && h.effects[0].arg == courses[courseId.value].uuid
      && (h.effects[0].target == Caller <==> !("userId" in body && body["userId"] != ""))
      && (h.effects[0].target.ById? ==> h.effects[0].target.id == body["userId"])
      && (h.effects[0].mutation == AddInstructorCourse <==> "type" in body && body["type"] == "instructor")
      && (h.effects[0].mutation == AddStudentCourse <==> !("type" in body && body["type"] == "instructor"))
      && (h.response.Ok? <==> enrolSucceeds)
    ensures !h.response.Unhandled?
  {
    if !Truthy(courseId) || caller.None? then
      Handled([], Err422(MissingCourseOrUserUuid))
    else if courseId.value !in courses then
      Handled([], Err410)
    else
      var course := courses[courseId.value];
      var role := EnrolAs(body);
      var call := [Mutate(UserToAdd(body), role, course.uuid)];
      if !enrolSucceeds then Handled(call, Err410)
      else if role == AddInstructorCourse then
        Handled(call, Ok("Added user as instructor to course " + course.uuid))
      else
        Handled(call, Ok("Added user as student to course " + course.uuid))
  }

  // ---------------------------------------------------------------- getUserType

  /** A user's standing in a course; NotInClass is sent as the "User not in this class" error. */
  datatype Role = Instructor | Student | NotInClass

  /**
   * Role resolution: the instructor list is searched first, then the student
   * list, so a uuid on both lists resolves to Instructor.
   */
  function ResolveRole(course: Course, uuid: Uuid): (role: Role)
    ensures role == Instructor <==> uuid in course.instructorList
    ensures role == Student <==> uuid !in course.instructorList && uuid in course.studentList
    ensures role == NotInClass <==> uuid !in course.instructorList && uuid !in course.studentList
  {
    if IndexOf(course.instructorList, uuid) != -1 then Instructor
    else if IndexOf(course.studentList, uuid) != -1 then Student
    else NotInClass
  }

  const MissingCourseOrUser := "Missing parameter: courseUUID or user"

  /**
   * getUserType: 422 before any lookup when the course id is missing or empty
   * or there is no caller; 410 when the course does not resolve; otherwise
   * the caller's role in the course.
   */
  function GetUserType(courseId: Option<string>, caller: Option<User>, courses: map<Uuid, Course>): (r: Response<Role>)
    ensures r.Err422? <==> !Truthy(courseId) || caller.None?
    ensures r.Err422? ==> r.error == MissingCourseOrUser
    ensures r.Err410? <==> Truthy(courseId) && caller.Some? && courseId.value !in courses
    ensures r.Ok? ==>
      var course := courses[courseId.value];
      && (r.body == Instructor <==> caller.value.uuid in course.instructorList)
      && (r.body == Student <==>
            caller.value.uuid !in course.instructorList && caller.value.uuid in course.studentList)
    ensures !r.Unhandled?
  {
    if !Truthy(courseId) || caller.None? then Err422(MissingCourseOrUser)
    else if courseId.value !in courses then Err410
    else Ok(ResolveRole(courses[courseId.value], caller.value.uuid))
  }

  /** A uuid on both lists of a course is an instructor there, whatever the student list holds. */
  lemma InstructorPrecedence(course: Course, uuid: Uuid, students: seq<Uuid>)
    requires uuid in course.instructorList
    ensures ResolveRole(course.(studentList := students), uuid) == Instructor
  {
  }

  /**
   * When the course id or the caller is missing, getUserType and
   * addUserToCourse answer the same whatever the course store holds: the 422
   * comes before any lookup.
   */
  lemma MissingParametersRejectBeforeLookup(courseId: Option<string>, caller: Option<User>, body: Body,
                                            courses: map<Uuid, Course>, others: map<Uuid, Course>, enrolSucceeds: bool)
    requires !Truthy(courseId) || caller.None?
    ensures GetUserType(courseId, caller, courses) == GetUserType(courseId, caller, others)
    ensures GetUserType(courseId, caller, courses) == Err422(MissingCourseOrUser)
    ensures AddUserToCourse(courseId, body, caller, courses, enrolSucceeds)
         == AddUserToCourse(courseId, body, caller, others, enrolSucceeds)
    ensures AddUserToCourse(courseId, body, caller, courses, enrolSucceeds) == Handled([], Err422(MissingCourseOrUserUuid))
  {
  }

  // ---------------------------------------------------------------- deleteUser

  /**
   * deleteUser: deletes the user named by the userUUID query when it is
   * truthy, else the caller. The deletion is not awaited, so only a throw
   * before the call returns reaches the catch block: then the answer is 410
   * and nothing is deleted; otherwise 200. With neither a query nor a caller,
   * reading the caller's uuid throws outside the try block and no response
   * is sent.
   */
  function DeleteUser(userUUID: Option<string>, caller: Option<User>, deleteCallReturns: bool): (h: Handled<string>)
    ensures Truthy(userUUID) ==>
      h == (if deleteCallReturns then Handled([DeleteUserById(userUUID.value)], h.response) else Handled([], Err410))
    ensures !Truthy(userUUID) && caller.Some? ==>
      h == (if deleteCallReturns then Handled([DeleteUserById(caller.value.uuid)], h.response) else Handled([], Err410))
    ensures h.response.Ok? <==> (Truthy(userUUID) || caller.Some?) && deleteCallReturns
    ensures !Truthy(userUUID) && caller.None? ==> h == Handled([], Unhandled)
  {
    var target :=
      if Truthy(userUUID) then Some(userUUID.value)
      else if caller.Some? then Some(caller.value.uuid)
      else None;
    match target
    case None => Handled([], Unhandled)
    case Some(id) =>
      if !deleteCallReturns then Handled([], Err410)
      else Handled([DeleteUserById(id)], Ok("removed user with the following userUUID:" + id))
  }
}
