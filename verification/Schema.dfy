/** The four tables of the service and the constraints their schema declares. */
module Schema {

  datatype Option<+T> = None | Some(value: T)

  /** A value of `uuid.New()`. */
  datatype Uuid = Uuid(bits: nat)

  /** A point on a clock, in any fixed unit. */
  type Time = int

  // Hashes are free constructors: nothing is known about them except that
  // different inputs give different values.
  datatype PasswordHash = Bcrypt(salt: nat, password: string)
  datatype CodeHash = OtpMac(code: string)
  datatype SecretHash = ResetMac(secret: string)

  predicate CheckPassword(hash: PasswordHash, password: string) {
    hash.password == password
  }

  datatype User = User(email: string, password: PasswordHash, username: string)
  datatype RefreshToken = RefreshToken(user: Uuid, createdAt: Time, expiresAt: Time)
  datatype ResetToken =
    ResetToken(user: Uuid, hash: SecretHash, expiresAt: Time, usedAt: Option<Time>, createdAt: Time)
  datatype Otp =
    Otp(identifier: string, code: CodeHash, attempts: int, expiresAt: Time, createdAt: Time)

  /** Each table maps a primary key to the rest of the row. */
  datatype Tables = Tables(
    users: map<Uuid, User>,
    refresh: map<Uuid, RefreshToken>,
    resets: map<Uuid, ResetToken>,
    otps: map<Uuid, Otp>
  )

  const EMPTY_TABLES := Tables(map[], map[], map[], map[])

  const SMALLINT_MAX := 32767
  const EMAIL_MAX := 255

  /** Go's conversion `int16(n)`: the low sixteen bits, read as a signed number. */
  function Int16(n: int): (r: int)
    ensures -0x8000 <= r <= SMALLINT_MAX
    ensures (n - r) % 0x1_0000 == 0
    ensures r == n <==> -0x8000 <= n <= SMALLINT_MAX
  {
    (n + 0x8000) % 0x1_0000 - 0x8000
  }

  ghost predicate UsersOk(users: map<Uuid, User>) {
    && (forall u, v | u in users && v in users && u != v ::
          users[u].email != users[v].email && users[u].username != users[v].username)
    && (forall u | u in users :: |users[u].email| <= EMAIL_MAX)
  }

  ghost predicate RefreshOk(refresh: map<Uuid, RefreshToken>, users: map<Uuid, User>) {
    forall i | i in refresh :: refresh[i].user in users
  }

  ghost predicate ResetsOk(resets: map<Uuid, ResetToken>, users: map<Uuid, User>) {
    && (forall i | i in resets :: resets[i].user in users)
    && (forall i, j | i in resets && j in resets && i != j :: resets[i].hash != resets[j].hash)
  }

  ghost predicate OtpsOk(otps: map<Uuid, Otp>) {
    && (forall c, d | c in otps && d in otps && c != d :: otps[c].identifier != otps[d].identifier)
    && (forall c | c in otps :: -0x8000 <= otps[c].attempts <= SMALLINT_MAX)
  }

  /** Uniqueness, foreign keys and column ranges, as declared by the schema. */
  ghost predicate Constraints(t: Tables) {
    && UsersOk(t.users)
    && RefreshOk(t.refresh, t.users)
    && ResetsOk(t.resets, t.users)
    && OtpsOk(t.otps)
  }
}
