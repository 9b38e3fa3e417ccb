/** The data shapes exchanged with the REST service and passed between components. */
module Api {
  import opened Wrappers

  /** `user.role` as the login endpoint sends it, `{id, name}`; either part may be missing. */
  datatype ServerRole = ServerRole(id: Option<nat>, name: Option<string>)

  /** `result.data.user` of a successful login. */
  datatype LoginUser = LoginUser(email: string, username: string, role: Option<ServerRole>)

  /** A row of the user list. */
  datatype User = User(id: string, email: string, username: string, roleId: nat)

  /** A task as the list and search endpoints send it: `contributors` is JSON text. */
  datatype RawTask = RawTask(
    id: string,
    startDate: string,
    endDate: string,
    title: string,
    description: string,
    status: string,
    contributors: string)

  /** One entry of the role list. */
  datatype RoleRecord = RoleRecord(id: nat, name: string)

  /** One entry of the collaborator list offered in the task modals. */
  datatype Collaborator = Collaborator(username: string, roleId: nat)

  /** A date held by a task form; calendar values and their formatting are not modelled. */
  datatype DateField = Blank | Today | Picked(text: string)

  /** A task after its contributors have been decoded. */
  datatype Task = Task(
    id: string,
    startDate: string,
    endDate: string,
    title: string,
    description: string,
    status: string,
    contributors: seq<string>)

  /** A list response whose JSON body carries its own `status` (the role and collaborator lists). */
  datatype ListBody<T> = ListBody(status: int, data: seq<T>) | ListThrew
}
