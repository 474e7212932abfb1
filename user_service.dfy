/** The user service's credential check (userservice/service.go). */
module UserService {
  import opened Kit

  const AdminName := "admin"
  const AdminPassword := "password"

  /** `basicService.User`: the one known account has ID 1. */
  function User(username: string, password: string): (r: Ret<int>)
    ensures r.err == Some(UserServiceInvalidArgument) <==> username == "" || password == ""
    ensures r.err == Some(UserServiceUserNotFound) <==>
      username != "" && password != "" && (username != AdminName || password != AdminPassword)
    ensures r.err.None? <==> username == AdminName && password == AdminPassword
    ensures r.err.None? ==> r.value == 1
    ensures r.err.Some? ==> r.value == 0
  {
    if username == "" || password == "" then Ret(0, Some(UserServiceInvalidArgument))
    else if username != AdminName || password != AdminPassword then Ret(0, Some(UserServiceUserNotFound))
    else Ret(1, None)
  }
}
