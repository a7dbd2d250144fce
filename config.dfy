/**
 * The mutable server configuration (Models/FtpServerConfig.cs): three
 * settable properties with defaults and a copying Clone.
 */
module FtpConfig {

  /** The C# int of the Port property. */
  type int32 = x: int | -0x8000_0000 <= x < 0x8000_0000

  /** The three settings as a value, for comparing configurations field by field. */
  datatype ConfigValue = ConfigValue(rootPath: string, ipAddress: string, port: int32)

  /** The property initialisers: root F:\Memory\temp, no bind address, port 21. */
  const Defaults: ConfigValue := ConfigValue(@"F:\Memory\temp", "", 21)

  class FtpServerConfig {
    var RootPath: string
    var IpAddress: string
    var Port: int32

    /** The current settings of this object. */
    function Value(): ConfigValue
      reads this
    {
      ConfigValue(RootPath, IpAddress, Port)
    }

    /** A new configuration has the default settings. */
    constructor ()
      ensures Value() == Defaults
    {
      RootPath := @"F:\Memory\temp";
      IpAddress := "";
      Port := 21;
    }

    /** A new object holding the same three settings as this one. */
    method Clone() returns (copy: FtpServerConfig)
      ensures fresh(copy)
      ensures copy.Value() == Value()
    {
      copy := new FtpServerConfig();
      copy.RootPath := RootPath;
      copy.IpAddress := IpAddress;
      copy.Port := Port;
    }
  }

  /** Cloning a clone gives the settings of the original, in a third object. */
  method CloneOfClone(original: FtpServerConfig) returns (second: FtpServerConfig)
    ensures fresh(second) && second != original
    ensures second.Value() == original.Value()
  {
    var first := original.Clone();
    second := first.Clone();
  }

  /**
   * Assigning the source's settable properties after a Clone leaves the
   * clone as it was: the clone is a separate object.
   */
  method CloneIsIsolated(source: FtpServerConfig, rootPath: string, ipAddress: string, port: int32)
    returns (copy: FtpServerConfig)
    modifies source
    ensures fresh(copy)
    ensures source.Value() == ConfigValue(rootPath, ipAddress, port)
    ensures copy.Value() == old(source.Value())
  {
    copy := source.Clone();
    source.RootPath := rootPath;
    source.IpAddress := ipAddress;
    source.Port := port;
  }
}
