/** Values shared by the pages of the school site: optional values (the
    `null`/`undefined` of the pages' props), the signed-in user handed out by
    the identity provider, the routes the pages navigate to, and the toast
    notification the pages raise. */
module Common {

  /** A value that may be missing (`null` or `undefined` in the pages). */
  datatype Option<+T> = None | Some(value: T)

  /** The signed-in user; only the identifier is ever read. */
  datatype User = User(uid: string)

  /** The destinations a page can send the browser to. */
  datatype Route = Home | ParentDashboard | StudentDashboard | ParentLogin | StudentLogin

  /** The URL path of each route. */
  function Path(r: Route): string
  {
    match r
    case Home => "/"
    case ParentDashboard => "/parent-dashboard"
    case StudentDashboard => "/student-dashboard"
    case ParentLogin => "/parent-login"
    case StudentLogin => "/student-login"
  }

  /** A transient notification: `variant: 'destructive'` when `destructive`. */
  datatype Toast = Toast(destructive: bool, title: string, description: string)

  /** JavaScript truthiness of an optional string: `null` and `""` are both falsy. */
  predicate Truthy(s: Option<string>)
  {
    s.Some? && s.value != ""
  }
}
