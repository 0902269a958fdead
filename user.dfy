/** `user.User` and its `Greet` method (internal/user/user.go). */
module User {
  import opened Go
  import Strings

  datatype User = User(name: string, age: int)

  const Greeting: string := "Hello, I'm "

  /** `fmt.Sprintf("Hello, I'm %s", u.Name)`. */
  function Greet(u: User): (g: string)
    ensures |g| == 11 + |u.name|
    ensures g[..11] == Greeting && g[11..] == u.name
  {
    Greeting + u.name
  }

  /** The greeting depends on the name only. */
  lemma GreetIgnoresAge(u: User, age: int)
    ensures Greet(u.(age := age)) == Greet(u)
  {
  }

  /** Different names give different greetings. */
  lemma GreetDistinguishesNames(u: User, v: User)
    requires Greet(u) == Greet(v)
    ensures u.name == v.name
  {
    assert u.name == Greet(u)[11..];
  }

  /** Stripping the fixed greeting gives back the name. */
  lemma GreetRecoversName(u: User)
    ensures Strings.Strip(Greet(u), Greeting, "") == Some(u.name)
  {
    Strings.StripFramed(Greeting, u.name, "");
    assert Greeting + u.name + "" == Greet(u);
  }
}
