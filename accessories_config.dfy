/** The defaults record built for every configured device
    (src/accessories/accessories.config.js). */
module AccessoriesConfig {
  import opened Js

  /** One device as the rest of the plugin sees it: thirteen properties,
      each a JavaScript value. */
  datatype Device = Device(
    active: JsValue,
    name: JsValue,
    manufacturer: JsValue,
    model: JsValue,
    serialNumber: JsValue,
    host: JsValue,
    port: JsValue,
    light: JsValue,
    temperature: JsValue,
    humidity: JsValue,
    humidifier: JsValue,
    allergicFunc: JsValue,
    sleepSpeed: JsValue)

  /** The properties of the user's device entry that `Config` reads. */
  const ConfigKeys: set<string> :=
    {"active", "name", "manufacturer", "model", "serialNumber", "host", "port",
     "light", "temperature", "humidity", "humidifier", "allergicFunc", "sleepSpeed"}

  const DefaultManufacturer: JsValue := Str("Philips")
  const DefaultModel: JsValue := Str("Air Purifier")
  const DefaultSerialNumber: JsValue := Str("000000")
  const DefaultPort: JsValue := Num(5683)

  /** Every property defaults with `||`, except `name`, which is copied as
      it is, and `host`, which goes through the address check `validIP`
      (a helper outside this model, taken as a parameter). */
  function Config(deviceConfig: JsObject, validIP: JsValue -> JsValue): (d: Device)
    // a truthy value that was supplied passes through unchanged
    ensures Truthy(Get(deviceConfig, "active")) ==> d.active == Get(deviceConfig, "active")
    ensures Truthy(Get(deviceConfig, "manufacturer")) ==> d.manufacturer == Get(deviceConfig, "manufacturer")
    ensures Truthy(Get(deviceConfig, "model")) ==> d.model == Get(deviceConfig, "model")
    ensures Truthy(Get(deviceConfig, "serialNumber")) ==> d.serialNumber == Get(deviceConfig, "serialNumber")
    ensures Truthy(Get(deviceConfig, "port")) ==> d.port == Get(deviceConfig, "port")
    ensures Truthy(Get(deviceConfig, "light")) ==> d.light == Get(deviceConfig, "light")
    ensures Truthy(Get(deviceConfig, "temperature")) ==> d.temperature == Get(deviceConfig, "temperature")
    ensures Truthy(Get(deviceConfig, "humidity")) ==> d.humidity == Get(deviceConfig, "humidity")
    ensures Truthy(Get(deviceConfig, "humidifier")) ==> d.humidifier == Get(deviceConfig, "humidifier")
    ensures Truthy(Get(deviceConfig, "allergicFunc")) ==> d.allergicFunc == Get(deviceConfig, "allergicFunc")
    ensures Truthy(Get(deviceConfig, "sleepSpeed")) ==> d.sleepSpeed == Get(deviceConfig, "sleepSpeed")
    // a missing or falsy value is replaced by the default
    ensures !Truthy(Get(deviceConfig, "manufacturer")) ==> d.manufacturer == DefaultManufacturer
    ensures !Truthy(Get(deviceConfig, "model")) ==> d.model == DefaultModel
    ensures !Truthy(Get(deviceConfig, "serialNumber")) ==> d.serialNumber == DefaultSerialNumber
    ensures !Truthy(Get(deviceConfig, "port")) ==> d.port == DefaultPort
    ensures !Truthy(Get(deviceConfig, "active")) ==> d.active == Bool(false)
    ensures !Truthy(Get(deviceConfig, "light")) ==> d.light == Bool(false)
    ensures !Truthy(Get(deviceConfig, "temperature")) ==> d.temperature == Bool(false)
    ensures !Truthy(Get(deviceConfig, "humidity")) ==> d.humidity == Bool(false)
    ensures !Truthy(Get(deviceConfig, "humidifier")) ==> d.humidifier == Bool(false)
    ensures !Truthy(Get(deviceConfig, "allergicFunc")) ==> d.allergicFunc == Bool(false)
    ensures !Truthy(Get(deviceConfig, "sleepSpeed")) ==> d.sleepSpeed == Bool(false)
    // the name is not defaulted, the host is always the checked address
    ensures d.name == Get(deviceConfig, "name")
    ensures d.host == validIP(Get(deviceConfig, "host"))
  {
    Device(
      active := Or(Get(deviceConfig, "active"), Bool(false)),
      name := Get(deviceConfig, "name"),
      manufacturer := Or(Get(deviceConfig, "manufacturer"), DefaultManufacturer),
      model := Or(Get(deviceConfig, "model"), DefaultModel),
      serialNumber := Or(Get(deviceConfig, "serialNumber"), DefaultSerialNumber),
      host := validIP(Get(deviceConfig, "host")),
      port := Or(Get(deviceConfig, "port"), DefaultPort),
      light := Or(Get(deviceConfig, "light"), Bool(false)),
      temperature := Or(Get(deviceConfig, "temperature"), Bool(false)),
      humidity := Or(Get(deviceConfig, "humidity"), Bool(false)),
      humidifier := Or(Get(deviceConfig, "humidifier"), Bool(false)),
      allergicFunc := Or(Get(deviceConfig, "allergicFunc"), Bool(false)),
      sleepSpeed := Or(Get(deviceConfig, "sleepSpeed"), Bool(false)))
  }

  /** No property outside the thirteen listed ones reaches the result: two
      entries that agree on those give the same device. */
  lemma ConfigReadsOnlyItsKeys(c1: JsObject, c2: JsObject, validIP: JsValue -> JsValue)
    requires forall k :: k in ConfigKeys ==> Get(c1, k) == Get(c2, k)
    ensures Config(c1, validIP) == Config(c2, validIP)
  {
    assert Get(c1, "active") == Get(c2, "active");
    assert Get(c1, "name") == Get(c2, "name");
    assert Get(c1, "manufacturer") == Get(c2, "manufacturer");
    assert Get(c1, "model") == Get(c2, "model");
    assert Get(c1, "serialNumber") == Get(c2, "serialNumber");
    assert Get(c1, "host") == Get(c2, "host");
    assert Get(c1, "port") == Get(c2, "port");
    assert Get(c1, "light") == Get(c2, "light");
    assert Get(c1, "temperature") == Get(c2, "temperature");
    assert Get(c1, "humidity") == Get(c2, "humidity");
    assert Get(c1, "humidifier") == Get(c2, "humidifier");
    assert Get(c1, "allergicFunc") == Get(c2, "allergicFunc");
    assert Get(c1, "sleepSpeed") == Get(c2, "sleepSpeed");
  }

  /** The defaulted properties are never falsy afterwards, and every flag
      keeps the truthiness it was given. */
  lemma ConfigTruthiness(deviceConfig: JsObject, validIP: JsValue -> JsValue)
    ensures var d := Config(deviceConfig, validIP);
      Truthy(d.manufacturer) && Truthy(d.model) && Truthy(d.serialNumber) && Truthy(d.port) &&
      (Truthy(d.active) <==> Truthy(Get(deviceConfig, "active"))) &&
      (Truthy(d.light) <==> Truthy(Get(deviceConfig, "light"))) &&
      (Truthy(d.temperature) <==> Truthy(Get(deviceConfig, "temperature"))) &&
      (Truthy(d.humidity) <==> Truthy(Get(deviceConfig, "humidity"))) &&
      (Truthy(d.humidifier) <==> Truthy(Get(deviceConfig, "humidifier"))) &&
      (Truthy(d.allergicFunc) <==> Truthy(Get(deviceConfig, "allergicFunc"))) &&
      (Truthy(d.sleepSpeed) <==> Truthy(Get(deviceConfig, "sleepSpeed")))
  {
  }
}
