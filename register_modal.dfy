/**
 * The registration modal: three inputs, an error line and a success line, and a submit
 * handler that checks the confirmation before it posts the new account.
 */
module RegisterModal {
  import opened Http
  import opened AuthService

  const Mismatch := "Пароли не совпадают. Попробуйте еще раз."
  const Registered := "Регистрация успешна. Теперь вы можете войти."
  const Failed := "Регистрация не удалась. Попробуйте еще раз."

  /** The three inputs. */
  datatype Input = Username | Password | ConfirmPassword

  class RegisterModal {
    var username: string
    var password: string
    var confirmPassword: string
    var error: string
    var success: string

    constructor ()
      ensures username == "" && password == "" && confirmPassword == ""
      ensures error == "" && success == ""
    {
      username := "";
      password := "";
      confirmPassword := "";
      error := "";
      success := "";
    }

    /** An input's change handler. */
    method Edit(input: Input, value: string)
      modifies this
      ensures input == Username ==> username == value
      ensures input == Password ==> password == value
      ensures input == ConfirmPassword ==> confirmPassword == value
      ensures input != Username ==> username == old(username)
      ensures input != Password ==> password == old(password)
      ensures input != ConfirmPassword ==> confirmPassword == old(confirmPassword)
      ensures error == old(error) && success == old(success)
    {
      match input {
        case Username => username := value;
        case Password => password := value;
        case ConfirmPassword => confirmPassword := value;
      }
    }

    /**
     * `handleRegister`: differing passwords show the mismatch error and post nothing.
     * Otherwise the account is posted; on success the success line is set and the inputs
     * and the error are emptied, on failure only the error is set (an earlier success
     * line stays beside it).
     */
    method HandleRegister(service: AuthService, outcome: Response<()>)
      modifies this, service
      ensures service.headers == old(service.headers)
      ensures old(password) != old(confirmPassword) ==>
        error == Mismatch && service.requests == old(service.requests)
        && username == old(username) && password == old(password)
        && confirmPassword == old(confirmPassword) && success == old(success)
      ensures old(password) == old(confirmPassword) ==>
        service.requests == old(service.requests) + [PostRegistration(old(username), old(password))]
      ensures old(password) == old(confirmPassword) && outcome.Ok? ==>
        success == Registered && error == ""
        && username == "" && password == "" && confirmPassword == ""
      ensures old(password) == old(confirmPassword) && outcome.Err? ==>
        error == Failed && success == old(success)
        && username == old(username) && password == old(password)
        && confirmPassword == old(confirmPassword)
    {
      if password != confirmPassword {
        error := Mismatch;
        return;
      }
      var r := service.Register(username, password, outcome);
      if r.Ok? {
        success := Registered;
        username := "";
        password := "";
        confirmPassword := "";
        error := "";
      } else {
        error := Failed;
      }
    }
  }
}
