/** The MQTT broker's configuration: its defaults, the host-and-port constructor
    and the listen address it logs. */
module MqttConfig {
  /** `u16`. */
  newtype U16 = x: int | 0 <= x < 0x1_0000

  datatype Config = Config(
    host: string, port: U16, maxConnections: nat, sessionTimeout: nat, keepAlive: U16,
    persistence: bool, logLevel: string)

  /** `MqttConfig::default`. */
  function Default(): (c: Config)
    ensures c.host == "0.0.0.0" && c.port == 1883 && c.maxConnections == 1000
    ensures c.sessionTimeout == 300 && c.keepAlive == 60 && c.persistence && c.logLevel == "info"
  {
    Config("0.0.0.0", 1883, 1000, 300, 60, true, "info")
  }

  /** `MqttConfig::new`: host and port as given, every other field the default. */
  function New(host: string, port: U16): (c: Config)
    ensures c.host == host && c.port == port
    ensures c.(host := Default().host, port := Default().port) == Default()
  {
    Default().(host := host, port := port)
  }

  function DigitChar(d: nat): (c: char)
    requires d < 10
    ensures '0' <= c <= '9' && (c as int) - ('0' as int) == d
  {
    ('0' as int + d) as char
  }

  /** `{}` of an unsigned integer: its decimal digits, with no leading zero. */
  function Decimal(n: nat): (s: string)
    ensures |s| >= 1 && forall k :: 0 <= k < |s| ==> '0' <= s[k] <= '9'
    ensures |s| > 1 ==> s[0] != '0'
  {
    if n < 10 then [DigitChar(n)] else Decimal(n / 10) + [DigitChar(n % 10)]
  }

  /** The value of a string of decimal digits. */
  function ParseDecimal(s: string): nat
    requires forall k :: 0 <= k < |s| ==> '0' <= s[k] <= '9'
  {
    if s == [] then 0 else 10 * ParseDecimal(s[..|s| - 1]) + ((s[|s| - 1] as int) - ('0' as int))
  }

  /** Printing then reading a number gives it back. */
  lemma {:induction false} DecimalRoundTrip(n: nat)
    ensures ParseDecimal(Decimal(n)) == n
  {
    if n >= 10 {
      DecimalRoundTrip(n / 10);
      var s := Decimal(n);
      assert s[..|s| - 1] == Decimal(n / 10);
    }
  }

  /** `listen_addr`: `host:port`. */
  function ListenAddr(c: Config): string {
    c.host + ":" + Decimal(c.port as nat)
  }

  /** The port is the part after the last colon: the address gives back the port
      whatever the host (an IPv6 host has colons of its own). */
  lemma ListenAddrEndsWithPort(c: Config)
    ensures var addr := ListenAddr(c);
            var digits := Decimal(c.port as nat);
            && ':' !in digits
            && addr[..|addr| - |digits| - 1] == c.host
            && addr[|addr| - |digits| - 1] == ':'
            && ParseDecimal(addr[|addr| - |digits|..]) == c.port as nat
  {
    var addr := ListenAddr(c);
    var digits := Decimal(c.port as nat);
    assert addr[|addr| - |digits|..] == digits;
    assert addr[..|addr| - |digits| - 1] == c.host;
    DecimalRoundTrip(c.port as nat);
  }

  /** The default broker listens on every interface at the standard MQTT port. */
  lemma DefaultListenAddr()
    ensures ListenAddr(Default()) == "0.0.0.0:1883"
  {
    assert Decimal(1883) == "1883" by {
      assert Decimal(1) == "1";
      assert Decimal(18) == "18";
      assert Decimal(188) == "188";
    }
  }
}
