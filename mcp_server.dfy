/** The `McpServer` module object (lib/mcp_server.rb): one process-wide
    configuration slot and `configure`, which creates the configuration on
    first use and hands it to a block. */
module McpServer {
  import opened Ruby
  import opened Config

  /** The singleton state behind `McpServer.configuration`. */
  class ModuleState {
    var configuration: Configuration?

    /** Before anything is configured the slot holds `nil`. */
    constructor ()
      ensures configuration == null
    {
      configuration := null;
    }

    /** `McpServer.configuration = c` replaces the stored object wholesale. */
    method SetConfiguration(c: Configuration?)
      modifies this
      ensures configuration == c
    {
      configuration := c;
    }

    /** `McpServer.configure { |config| ... }`, the block being the attribute
        writes it performs on the configuration it is given. A stored
        configuration is kept (not reset); an empty slot first receives a
        fresh configuration with the defaults. */
    method Configure(block: seq<Assignment>)
      modifies this, configuration
      ensures configuration != null
      ensures old(configuration) != null ==> configuration == old(configuration)
      ensures old(configuration) == null ==> fresh(configuration)
      ensures configuration.Snapshot() ==
              ApplyAll(if old(configuration) == null then Defaults() else old(configuration.Snapshot()), block)
    {
      if configuration == null {
        configuration := new Configuration();
      }
      var config := configuration;
      ghost var start := config.Snapshot();
      var i := 0;
      while i < |block|
        invariant 0 <= i <= |block|
        invariant configuration == config
        invariant config.Snapshot() == ApplyAll(start, block[..i])
      {
        config.Write(block[i].field, block[i].value);
        assert block[..i + 1][..i] == block[..i];
        i := i + 1;
      }
      assert block[..|block|] == block;
    }
  }
}
