/** The test cases of the repository, replayed against the contracts of the
    handlers: each method runs the calls of one test and asserts its outcome. */
module Scenarios {
  import opened Wrappers
  import opened LabModels
  import opened LabApi
  import UsersApi

  /** Login, `me`, logout, `me` again (test/test_auth.py). */
  method FullAuthFlow(hash: string -> string, normalize: string -> string)
    requires normalize("testuser") == "testuser"
  {
    var accounts := new UsersApi.Accounts(hash, normalize);
    var reg := accounts.Register("testuser", "test@example.com", "strongpassword123", "strongpassword123");
    assert reg.Ok?;
    var out := accounts.Logout();
    assert out.Ok?;
    var login := accounts.Login("testuser", "strongpassword123");
    assert login.Ok?;
    assert accounts.Me().Ok? && accounts.Me().value.username == "testuser";
    out := accounts.Logout();
    assert out.Ok?;
    assert accounts.Me() == Err(UsersApi.Unauthenticated);
    out := accounts.Logout();
    assert out == Err(UsersApi.Unauthenticated);
  }

  /** A taken username and a mismatched pair: the mismatch is reported first. */
  method RegisterRefusals(hash: string -> string, normalize: string -> string)
    requires normalize("alice") == "alice"
  {
    var accounts := new UsersApi.Accounts(hash, normalize);
    var first := accounts.Register("alice", "alice@x.com", "pw123456", "pw123456");
    assert first.Ok?;
    var users := accounts.users;
    var again := accounts.Register("alice", "alice@x.com", "pw123456", "pw123456");
    assert again == Err(UsersApi.UsernameTaken) && UsersApi.Detail(again.error) == Some("Username already taken");
    var mismatch := accounts.Register("alice", "alice@x.com", "pw123456", "other");
    assert mismatch == Err(UsersApi.PasswordsDoNotMatch) && UsersApi.Status(mismatch.error) == 400;
    assert accounts.users == users;
  }

  /** An unknown user and a wrong password fail alike (tests/test_users_api.py). */
  method LoginRefusals(hash: string -> string, normalize: string -> string)
    requires hash("wrongpassword") != hash("password123")
    requires normalize("existinguser") == "existinguser"
  {
    var accounts := new UsersApi.Accounts(hash, normalize);
    var reg := accounts.Register("existinguser", "existing@example.com", "password123", "password123");
    var out := accounts.Logout();
    var unknown := accounts.Login("nonexistent", "wrongpassword");
    var wrong := accounts.Login("existinguser", "wrongpassword");
    assert unknown == wrong == Err(UsersApi.InvalidCredentials);
    assert accounts.session == None;
  }

  /** A name that differs from a stored one but normalises to it passes the
      guard and then fails at the insert, and no user is added; a name that
      normalises to another is stored normalised, so logging in with the name
      as typed fails. */
  method NormalisedNames(hash: string -> string, normalize: string -> string)
    requires normalize("bob") == "bob" && normalize("\U{FF42}ob") == "bob"
    requires normalize("\U{FF43}arol") == "carol"
  {
    var accounts := new UsersApi.Accounts(hash, normalize);
    var bob := accounts.Register("bob", "bob@x.com", "pw", "pw");
    assert bob.Ok?;
    var users := accounts.users;
    var twin := accounts.Register("\U{FF42}ob", "twin@x.com", "pw", "pw");
    assert !UsersApi.IsUsernameTaken(users, "\U{FF42}ob") by {
      forall id | id in users ensures users[id].username != "\U{FF42}ob" {
        assert users[id].username == "bob";
      }
    }
    assert twin == Err(UsersApi.DuplicateUsername) && accounts.users == users;

    var carol := accounts.Register("\U{FF43}arol", "carol@x.com", "pw", "pw");
    assert carol.Ok? && carol.value.username == "carol";
    var out := accounts.Logout();
    var typed := accounts.Login("\U{FF43}arol", "pw");
    assert typed == Err(UsersApi.InvalidCredentials) by {
      forall id | id in accounts.users ensures accounts.users[id].username != "\U{FF43}arol" {
        assert accounts.users[id].username in {"bob", "carol"};
      }
    }
  }

  /** The admin routes with a regular user and with an administrator
      (tests/test_core_api.py). */
  method AdminRoutes()
  {
    var db := new LabDatabase();
    var topic := db.AddTopic("Test Topic");
    assert topic.Some? && db.topics[topic.value].description == "";
    var regular, admin := Some(Identity(false)), Some(Identity(true));
    var payload := TaskPayload("New Lab Task", "New task description", topic.value);

    var refused := CreateTask(db, regular, payload, 0);
    assert refused == Err(NotAuthorized) && Message(refused.error) == Some("Not authorized");
    assert db.tasks == map[];

    var unknownTopic := CreateTask(db, admin, payload.(topicId := topic.value + 1), 0);
    assert unknownTopic == Err(TopicNotFound) && LabApi.Status(unknownTopic.error) == 404;

    var created := CreateTask(db, admin, payload, 0);
    assert created.Ok?;
    var id := created.value.id;
    assert GetTask(regular, db.tasks, id).Ok?;
    assert DownloadFile(regular, db.tasks, id) == Err(FileNotFound);

    var other := UpdateTask(db, regular, id, payload.(title := "Updated Title"));
    assert other == Err(NotAuthorized) && db.tasks[id].title == "New Lab Task";
    var updated := UpdateTask(db, admin, id, payload.(title := "Updated Title"));
    assert updated.Ok? && db.tasks[id].title == "Updated Title" && db.tasks[id].createdAt == 0;

    var kept := DeleteTask(db, regular, id);
    assert kept == Err(NotAuthorized) && id in db.tasks;
    var deleted := DeleteTask(db, admin, id);
    assert deleted.Ok? && GetTask(admin, db.tasks, id) == Err(TaskNotFound);
  }

  /** Deleting a topic takes its tasks with it (tests/test_core_models.py). */
  method CascadeDeleteOfTopic()
  {
    var db := new LabDatabase();
    var topic := db.AddTopic("Mathematics", "Numbers");
    var duplicate := db.AddTopic("Mathematics");
    assert duplicate.None?;
    var created := CreateTask(db, Some(Identity(true)), TaskPayload("Lab", "About", topic.value), 0);
    var id := created.value.id;
    db.DeleteTopic(topic.value);
    assert id !in db.tasks;
  }
}
